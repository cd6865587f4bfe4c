/**
 * The at-bat entry workflow of the hit tracker as a pure reducer: the session
 * record is a value, every button callback (and the two screen branches that
 * write the session) is a case of `Step`, and `Offered` says which of them the
 * screen drawn for a stage lets the operator trigger.
 */
module AtBatWorkflow {
  import opened Wrappers

  /** The seven values the session's `stage` key takes. */
  datatype Stage =
    | GameDetails
    | SelectOutcome
    | SelectBattedResult
    | SelectContactType
    | LogHitLocation
    | PlotHitLocation
    | Reset

  /** The four outcome buttons of the `select_outcome` screen. */
  datatype Outcome = Strikeout | StrikeoutLooking | Walk | BattedBall

  /** The three buttons of the `select_batted_result` screen. */
  datatype BattedResult = Error | BaseHit | Out

  /** The three buttons of the `select_contact_type` screen. */
  datatype ContactType = Grounder | FlyBall | LineDrive

  function StageName(s: Stage): string {
    match s
    case GameDetails => "game_details"
    case SelectOutcome => "select_outcome"
    case SelectBattedResult => "select_batted_result"
    case SelectContactType => "select_contact_type"
    case LogHitLocation => "log_hit_location"
    case PlotHitLocation => "plot_hit_location"
    case Reset => "reset"
  }

  /** The string each outcome button passes to its callback. */
  function OutcomeLabel(o: Outcome): string {
    match o
    case Strikeout => "Strikeout"
    case StrikeoutLooking => "Strikeout Looking"
    case Walk => "Walk"
    case BattedBall => "Batted Ball"
  }

  function BattedResultLabel(r: BattedResult): string {
    match r
    case Error => "Error"
    case BaseHit => "Base Hit"
    case Out => "Out"
  }

  function ContactTypeLabel(c: ContactType): string {
    match c
    case Grounder => "Grounder"
    case FlyBall => "Fly Ball"
    case LineDrive => "Line Drive"
  }

  /** The button strings are pairwise distinct, so comparing the datatype
      values decides exactly what the code's string comparisons decide
      (`outcome == "Batted Ball"` at line 46 of the tracker). */
  lemma LabelsAreDistinct(o: Outcome, o': Outcome, r: BattedResult, r': BattedResult,
                          c: ContactType, c': ContactType, st: Stage, st': Stage)
    ensures OutcomeLabel(o) == "Batted Ball" <==> o == BattedBall
    ensures OutcomeLabel(o) == OutcomeLabel(o') ==> o == o'
    ensures BattedResultLabel(r) == BattedResultLabel(r') ==> r == r'
    ensures ContactTypeLabel(c) == ContactTypeLabel(c') ==> c == c'
    ensures StageName(st) == StageName(st') ==> st == st'
  {
  }

  /** What the image-coordinates widget reports for a click on the field image:
      pixel offsets, either of which may be `None`. */
  datatype Click = Click(x: Option<int>, y: Option<int>)

  /** One committed at-bat, as appended to `hit_data` and sent to the warehouse. */
  datatype HitRecord = HitRecord(
    id: string,
    date: string,
    opponent: Option<string>,
    hitterName: Option<string>,
    outcome: Option<Outcome>,
    battedResult: Option<BattedResult>,
    contactType: Option<ContactType>,
    x: Option<int>,
    y: Option<int>)

  /** The session state: the current stage, the in-progress at-bat and the
      records committed so far in this session. */
  datatype Session = Session(
    stage: Stage,
    hitData: seq<HitRecord>,
    imgClickData: Option<Click>,
    date: Option<string>,
    opponent: Option<string>,
    hitterName: Option<string>,
    outcome: Option<Outcome>,
    battedResult: Option<BattedResult>,
    contactType: Option<ContactType>)

  /** A fresh session: stage `game_details`, no records, every other key `None`. */
  function Initial(): Session {
    Session(GameDetails, [], None, None, None, None, None, None, None)
  }

  /** Python's `str(date)`: the date's text, or "None" before a date was entered. */
  function DateText(d: Option<string>): string {
    match d
    case Some(t) => t
    case None => "None"
  }

  /** Python truthiness of an optional text field: present and non-empty. */
  predicate Filled(v: Option<string>) {
    v.Some? && v.value != ""
  }

  /** What the operator can do. An action that may commit a record carries the
      record's id and whether the warehouse insert raises: `log_to_bigquery`
      catches nothing, so a raise ends the callback after the record was
      appended and before the stage is set. */
  datatype Action =
    | EnterGameDetails(date: string, opponent: string, hitterName: string)
    | PressNext
    | PressOutcome(outcome: Outcome, id: string, insertRaises: bool)
    | PressBattedResult(result: BattedResult)
    | PressContactType(contact: ContactType)
    | ClickField(click: Option<Click>, id: string, insertRaises: bool)
    | PressLogAnother

  /** The actions the screen drawn for `stage` offers. */
  predicate Offered(stage: Stage, a: Action) {
    match a
    case EnterGameDetails(_, _, _) => stage == GameDetails
    case PressNext => stage == GameDetails
    case PressOutcome(_, _, _) => stage == SelectOutcome
    case PressBattedResult(_) => stage == SelectBattedResult
    case PressContactType(_) => stage == SelectContactType
    case ClickField(_, _, _) => stage == LogHitLocation
    case PressLogAnother => stage == PlotHitLocation || stage == Reset
  }

  /** The record `select_outcome` commits for an outcome other than a batted ball. */
  function OutcomeOnlyRecord(s: Session, o: Outcome, id: string): HitRecord {
    HitRecord(id, DateText(s.date), s.opponent, s.hitterName, Some(o), None, None, None, None)
  }

  /** The record the `log_hit_location` screen commits for a click. */
  function LocatedRecord(s: Session, c: Click, id: string): HitRecord {
    HitRecord(id, DateText(s.date), s.opponent, s.hitterName, s.outcome,
              s.battedResult, s.contactType, c.x, c.y)
  }

  /** True when the click branch of `log_hit_location` fires. */
  predicate Clicked(c: Option<Click>) {
    c.Some? && c.value.x.Some?
  }

  /** The effect of one action on the session (the warehouse insert leaves the
      session alone and is not part of it). */
  function Step(s: Session, a: Action): Session {
    match a
    case EnterGameDetails(d, opp, hitter) =>
      s.(date := Some(d), opponent := Some(opp), hitterName := Some(hitter))
    case PressNext =>
      if Filled(s.opponent) && Filled(s.hitterName) then s.(stage := SelectOutcome) else s
    case PressOutcome(o, id, raises) =>
      if o == BattedBall then s.(outcome := Some(o), stage := SelectBattedResult)
      else s.(outcome := Some(o), hitData := s.hitData + [OutcomeOnlyRecord(s, o, id)],
              stage := if raises then s.stage else Reset)
    case PressBattedResult(r) =>
      s.(battedResult := Some(r), stage := SelectContactType)
    case PressContactType(c) =>
      s.(contactType := Some(c), stage := LogHitLocation, imgClickData := None)
    case ClickField(c, id, raises) =>
      if Clicked(c) then
        s.(imgClickData := c, hitData := s.hitData + [LocatedRecord(s, c.value, id)],
           stage := if raises then s.stage else PlotHitLocation)
      else s
    case PressLogAnother =>
      s.(stage := GameDetails, imgClickData := None)
  }

  /** The session after the actions of `trace`, one after another. */
  function Run(s: Session, trace: seq<Action>): Session
    decreases |trace|
  {
    if trace == [] then s else Run(Step(s, trace[0]), trace[1..])
  }

  /** Every action of `trace` is offered by the screen it is taken on. */
  predicate Playable(s: Session, trace: seq<Action>)
    decreases |trace|
  {
    trace == [] || (Offered(s.stage, trace[0]) && Playable(Step(s, trace[0]), trace[1..]))
  }

  /** The actions that append a record: an outcome other than a batted ball,
      and a click that reports an x coordinate. */
  predicate Commits(a: Action) {
    || (a.PressOutcome? && a.outcome != BattedBall)
    || (a.ClickField? && Clicked(a.click))
  }

  predicate InsertRaises(a: Action) {
    (a.PressOutcome? || a.ClickField?) && a.insertRaises
  }

  /** The stages that come after a commit. */
  predicate Committed(stage: Stage) {
    stage == PlotHitLocation || stage == Reset
  }

  /** A record is complete for its outcome: a batted ball carries a batted
      result, a contact type and an x coordinate; any other outcome carries
      none of those and no y coordinate; opponent and hitter are filled. */
  predicate Gated(r: HitRecord) {
    && r.outcome.Some?
    && (r.outcome.value == BattedBall <==> r.x.Some?)
    && (r.outcome.value == BattedBall ==> r.battedResult.Some? && r.contactType.Some?)
    && (r.outcome.value != BattedBall ==> r.battedResult.None? && r.contactType.None? && r.y.None?)
    && Filled(r.opponent) && Filled(r.hitterName)
  }

  /** The invariant of every session reachable from `Initial()`. */
  predicate Consistent(s: Session) {
    && (forall i :: 0 <= i < |s.hitData| ==> Gated(s.hitData[i]))
    && (s.stage != GameDetails && !Committed(s.stage) ==> Filled(s.opponent) && Filled(s.hitterName))
    && (s.stage == SelectBattedResult || s.stage == SelectContactType || s.stage == LogHitLocation
        ==> s.outcome == Some(BattedBall))
    && (s.stage == SelectContactType || s.stage == LogHitLocation ==> s.battedResult.Some?)
    && (s.stage == LogHitLocation ==> s.contactType.Some?)
  }

  /** `hit_data` only grows at its end, by at most one record per action, and
      it grows exactly on a committing action. When the insert returns, an
      offered action commits exactly when it moves the session into a
      committed stage; when the insert raises, the record stays appended and
      the stage stays where it was. */
  lemma StepAppendsAtMostOne(s: Session, a: Action)
    ensures s.hitData <= Step(s, a).hitData
    ensures |Step(s, a).hitData| <= |s.hitData| + 1
    ensures |Step(s, a).hitData| == |s.hitData| + 1 <==> Commits(a)
    ensures Offered(s.stage, a) && !InsertRaises(a) ==>
      (Commits(a) <==> Committed(Step(s, a).stage))
    ensures Commits(a) && InsertRaises(a) ==> Step(s, a).stage == s.stage
  {
  }

  /** Over any sequence of actions, earlier records are never changed or
      removed, and each action adds at most one. */
  lemma {:induction false} RunOnlyAppends(s: Session, trace: seq<Action>)
    ensures s.hitData <= Run(s, trace).hitData
    ensures |Run(s, trace).hitData| <= |s.hitData| + |trace|
    decreases |trace|
  {
    if trace != [] {
      StepAppendsAtMostOne(s, trace[0]);
      RunOnlyAppends(Step(s, trace[0]), trace[1..]);
    }
  }

  lemma InitialIsConsistent()
    ensures Consistent(Initial())
  {
  }

  /** Every offered action keeps the session consistent. */
  lemma StepPreservesConsistent(s: Session, a: Action)
    requires Consistent(s) && Offered(s.stage, a)
    ensures Consistent(Step(s, a))
  {
  }

  lemma {:induction false} RunPreservesConsistent(s: Session, trace: seq<Action>)
    requires Consistent(s) && Playable(s, trace)
    ensures Consistent(Run(s, trace))
    decreases |trace|
  {
    if trace != [] {
      StepPreservesConsistent(s, trace[0]);
      RunPreservesConsistent(Step(s, trace[0]), trace[1..]);
    }
  }

  /** In every session reachable from a fresh one through the screens, a record
      that carries a coordinate was committed at the end of the batted-ball
      branch: its outcome is "Batted Ball" and it has a batted result and a
      contact type; a record without coordinates carries neither; and every
      record is complete for its outcome (`Gated`: a "Batted Ball" record has
      an x coordinate, so none is committed part-way through the branch). */
  lemma ReachableRecordsAreGated(trace: seq<Action>, i: nat)
    requires Playable(Initial(), trace)
    requires i < |Run(Initial(), trace).hitData|
    ensures var r := Run(Initial(), trace).hitData[i];
      && (r.x.Some? || r.y.Some? ==>
            r.outcome == Some(BattedBall) && r.battedResult.Some? && r.contactType.Some?)
      && (r.x.None? ==> r.battedResult.None? && r.contactType.None? && r.y.None?)
      && Filled(r.opponent) && Filled(r.hitterName)
      && Gated(r)
  {
    InitialIsConsistent();
    RunPreservesConsistent(Initial(), trace);
  }
}
