/**
 * The tracker's `st.session_state` as an object whose fields the button
 * callbacks assign in place, and whose `hitData` list they append to.
 */
module AtBatTracker {
  import opened Wrappers
  import opened AtBatWorkflow
  import opened SprayChart

  class SessionState {
    var stage: Stage
    var hitData: seq<HitRecord>
    var imgClickData: Option<Click>
    var date: Option<string>
    var opponent: Option<string>
    var hitterName: Option<string>
    var outcome: Option<Outcome>
    var battedResult: Option<BattedResult>
    var contactType: Option<ContactType>

    /** The object's fields as a session value. */
    function Snapshot(): Session
      reads this
    {
      Session(stage, hitData, imgClickData, date, opponent, hitterName,
              outcome, battedResult, contactType)
    }

    /** A fresh session, as the initialisation loop leaves it. */
    constructor ()
      ensures stage == Stage.GameDetails && hitData == [] && imgClickData == None
      ensures date == None && opponent == None && hitterName == None
      ensures outcome == None && battedResult == None && contactType == None
      ensures Snapshot() == Initial()
    {
      stage := Stage.GameDetails;
      hitData := [];
      imgClickData := None;
      date := None;
      opponent := None;
      hitterName := None;
      outcome := None;
      battedResult := None;
      contactType := None;
    }

    /** The `game_details` screen copies its three input widgets into the session. */
    method EnterGameDetails(d: string, opp: string, hitter: string)
      requires stage == Stage.GameDetails
      modifies this`date, this`opponent, this`hitterName
      ensures date == Some(d) && opponent == Some(opp) && hitterName == Some(hitter)
      ensures Snapshot() == Step(old(Snapshot()), Action.EnterGameDetails(d, opp, hitter))
    {
      date := Some(d);
      opponent := Some(opp);
      hitterName := Some(hitter);
    }

    /** `submit_game_details`: advance only when opponent and hitter are both
        filled in; otherwise nothing changes. */
    method SubmitGameDetails()
      modifies this`stage
      ensures Filled(opponent) && Filled(hitterName) ==> stage == Stage.SelectOutcome
      ensures !(Filled(opponent) && Filled(hitterName)) ==> stage == old(stage)
      ensures Snapshot() == Step(old(Snapshot()), PressNext)
    {
      if opponent.Some? && opponent.value != "" && hitterName.Some? && hitterName.value != "" {
        stage := Stage.SelectOutcome;
      }
    }

    /** `select_outcome`: a batted ball continues to the batted-result screen;
        any other outcome commits a record without batted-ball fields and
        goes to the summary screen. When the warehouse insert raises, the
        record is already appended and the stage is left as it was. */
    method SelectOutcome(o: Outcome, id: string, insertRaises: bool)
      modifies this`outcome, this`hitData, this`stage
      ensures outcome == Some(o)
      ensures o == BattedBall ==> stage == Stage.SelectBattedResult && hitData == old(hitData)
      ensures o != BattedBall ==> stage == if insertRaises then old(stage) else Stage.Reset
      ensures o != BattedBall ==>
                hitData == old(hitData) +
                  [HitRecord(id, DateText(date), opponent, hitterName, Some(o), None, None, None, None)]
      ensures Snapshot() == Step(old(Snapshot()), PressOutcome(o, id, insertRaises))
    {
      outcome := Some(o);
      if o == BattedBall {
        stage := Stage.SelectBattedResult;
      } else {
        var hitInfo := HitRecord(id, DateText(date), opponent, hitterName, Some(o), None, None, None, None);
        hitData := hitData + [hitInfo];
        if !insertRaises {
          stage := Stage.Reset;
        }
      }
    }

    /** `select_batted_result`: store the result, go to the contact-type screen. */
    method SelectBattedResult(r: BattedResult)
      modifies this`battedResult, this`stage
      ensures battedResult == Some(r) && stage == Stage.SelectContactType
      ensures Snapshot() == Step(old(Snapshot()), PressBattedResult(r))
    {
      battedResult := Some(r);
      stage := Stage.SelectContactType;
    }

    /** `select_contact_type`: store the contact type, clear the last click,
        go to the location screen. */
    method SelectContactType(c: ContactType)
      modifies this`contactType, this`stage, this`imgClickData
      ensures contactType == Some(c) && stage == Stage.LogHitLocation && imgClickData == None
      ensures Snapshot() == Step(old(Snapshot()), PressContactType(c))
    {
      contactType := Some(c);
      stage := Stage.LogHitLocation;
      imgClickData := None;
    }

    /** The `log_hit_location` screen: a click that reports an x coordinate
        commits the full batted-ball record and goes to the chart screen; no
        click changes nothing. When the warehouse insert raises, the record is
        already appended and the stage stays `log_hit_location`. */
    method LogHitLocation(click: Option<Click>, id: string, insertRaises: bool)
      requires stage == Stage.LogHitLocation
      modifies this`imgClickData, this`hitData, this`stage
      ensures Clicked(click) ==> imgClickData == click
      ensures Clicked(click) ==>
                stage == if insertRaises then Stage.LogHitLocation else Stage.PlotHitLocation
      ensures Clicked(click) ==>
                hitData == old(hitData) +
                  [HitRecord(id, DateText(date), opponent, hitterName, outcome, battedResult,
                             contactType, click.value.x, click.value.y)]
      ensures !Clicked(click) ==>
        imgClickData == old(imgClickData) && hitData == old(hitData) && stage == old(stage)
      ensures Snapshot() == Step(old(Snapshot()), ClickField(click, id, insertRaises))
    {
      if click.Some? && click.value.x.Some? {
        imgClickData := click;
        var hitInfo := HitRecord(id, DateText(date), opponent, hitterName, outcome, battedResult,
                                 contactType, click.value.x, click.value.y);
        hitData := hitData + [hitInfo];
        if !insertRaises {
          stage := Stage.PlotHitLocation;
        }
      }
    }

    /** `log_another_at_bat`: back to the game-details screen with the last
        click cleared; everything else, the records included, is kept. */
    method LogAnotherAtBat()
      modifies this`stage, this`imgClickData
      ensures stage == Stage.GameDetails && imgClickData == None
      ensures Snapshot() == Step(old(Snapshot()), PressLogAnother)
    {
      stage := Stage.GameDetails;
      imgClickData := None;
    }

    /** The `plot_hit_location` screen's loop: the points it draws, one per
        record whose two coordinates are both present and truthy (neither is
        `None` nor 0), in record order. */
    method PlottedPoints() returns (points: seq<(int, int)>)
      requires stage == Stage.PlotHitLocation
      ensures points == PlotPointsAsWritten(hitData)
      ensures forall p :: p in points <==>
        exists i :: 0 <= i < |hitData| && hitData[i].x == Some(p.0) && hitData[i].y == Some(p.1)
                    && p.0 != 0 && p.1 != 0
    {
      points := [];
      for i := 0 to |hitData|
        invariant points == PlotPointsAsWritten(hitData[..i])
      {
        var hit := hitData[i];
        assert hitData[..i + 1] == hitData[..i] + [hit];
        PlotPointsAppend(hitData[..i], [hit], PlottedAsWritten);
        assert [hit][..0] == [];
        if hit.x.Some? && hit.x.value != 0 && hit.y.Some? && hit.y.value != 0 {
          points := points + [(hit.x.value, hit.y.value)];
        }
      }
      assert hitData[..|hitData|] == hitData;
      forall p ensures p in points <==>
        exists i :: 0 <= i < |hitData| && hitData[i].x == Some(p.0) && hitData[i].y == Some(p.1)
                    && p.0 != 0 && p.1 != 0
      {
        PlotPointsAsWrittenExactly(hitData, p);
      }
    }
  }
}
