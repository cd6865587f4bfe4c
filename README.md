# At-bat tracker: the entry workflow, verified

This project models the at-bat entry workflow of the baseball hit tracker
(`at_bat_tracker.py`). A session moves through the screens `game_details` →
`select_outcome` → (`reset` | `select_batted_result` → `select_contact_type` →
`log_hit_location` → `plot_hit_location`) and back to `game_details`. On the way it
collects the game details and the at-bat's classification, and it appends each
committed at-bat (a hit record) to the session's `hit_data` list.

Modules:

- `Wrappers` (`wrappers.dfy`): `Option`, standing for Python's `None`.
- `AtBatWorkflow` (`at_bat_workflow.dfy`): the stages, the button value sets
  (outcomes "Strikeout", "Strikeout Looking", "Walk", "Batted Ball"; batted results
  "Error", "Base Hit", "Out"; contact types "Grounder", "Fly Ball", "Line Drive"),
  the hit record and the session as values. `Step` gives the effect of one
  operator action. `Offered` says which actions the screen of each stage shows.
  `Run` and `Playable` cover sequences of actions. The lemmas prove that
  `hit_data` is append-only and that every reachable session satisfies
  `Consistent`: every record is complete for its outcome.
- `SessionInit` (`session_init.dfy`): the loop that runs at the top of each script
  rerun and gives every missing session key its default. It works on the
  session as a key/value map.
- `SprayChart` (`spray_chart.dfy`): which records the chart screen draws. This is
  both the loop as written, which skips a coordinate of 0, and the intended chart
  (see Findings).
- `AtBatTracker` (`session_state.dfy`): the class `SessionState`. Its fields are the
  session keys, and it has one method per callback and per screen branch that
  writes the session. Each method's `modifies` clause lists exactly the fields
  it assigns. Each `ensures` states the new fields and equates the new session
  with `Step` applied to the old one, so the lemmas of `AtBatWorkflow` about `Step`
  and `Run` apply to every sequence of method calls. The invariant lemmas apply to
  every sequence that follows the screens (`Playable`). The callbacks do not check
  the stage, so a call out of turn, such as `SelectOutcome(Walk, …)` on a fresh
  session, can commit a record whose opponent is `None`.

Modelling choices:

- The callbacks do not check the stage, and neither do the class methods that
  model them. The screen-per-stage discipline (a button is only drawn on its
  own screen) is `Offered`. It is assumed only by the invariant lemmas. The
  screen branches, which sit inside `if stage == ...`, require their stage.
- Widget values become method parameters. The three game-details inputs are the
  `EnterGameDetails` action (lines 81-85). The click reported by the image widget
  is the `click` parameter of `LogHitLocation`. The record id that
  `uuid.uuid4()` would produce is the `id` parameter.
- `str(st.session_state.date)` is `DateText`. It yields "None" when no date was
  entered.
- The warehouse insert (`log_to_bigquery`) does not change the session itself.
  When `insert_rows_json` returns errors, they are reported and the stage still
  advances. But `log_to_bigquery` catches nothing: reading the credentials, building
  the client or inserting can raise. A raise ends the callback or the screen branch after the record was
  appended (lines 60, 129) and before the stage is set (lines 62, 132). The
  committing actions therefore carry an `insertRaises` flag. When it is set, the
  record stays appended and the stage stays `select_outcome` or `log_hit_location`.
  Another click on the location screen then appends a second record.
- Other revisions of the application differ from this file, and the model
  follows this file. Those revisions use other value sets: three strikeout/walk
  outcomes besides Batted Ball, batted results Single…Homerun, and weak/hard contact types. Some of them
  have "log another at-bat" clear the outcome, batted result and contact type.
  The code's `log_another_at_bat` clears only the stage and the last click. The
  game-details screen overwrites date, opponent and hitter from its widgets the
  next time it is drawn.

## Model

| member | source | states |
|---|---|---|
| `AtBatTracker.SessionState.constructor` | at_bat_tracker.py:29-35 | a fresh session has stage `game_details`, empty `hit_data` and `None` in every other field |
| `SessionInit.InitializeSessionState` | at_bat_tracker.py:29-35 | the initialisation loop leaves every session key present, keeps keys that were already there, and gives each added key its default |
| `SessionInit.FreshSessionIsInitial` | at_bat_tracker.py:29-35 | initialising an empty session state yields exactly stage `game_details`, `hit_data = []` and `None` elsewhere |
| `SessionInit.RerunKeepsSession` | at_bat_tracker.py:29-35 | rerunning the initialisation on a session that holds all keys leaves it unchanged |
| `SessionInit.InitializationIsIdempotent` | at_bat_tracker.py:29-35 | initialising twice gives the same state as initialising once |
| `AtBatTracker.SessionState.EnterGameDetails` | at_bat_tracker.py:81-85 | the game-details screen stores date, opponent and hitter; nothing else changes |
| `AtBatTracker.SessionState.SubmitGameDetails` | at_bat_tracker.py:38-42 | the stage becomes `select_outcome` when opponent and hitter are both non-empty, otherwise stage and fields are unchanged |
| `AtBatTracker.SessionState.SelectOutcome` | at_bat_tracker.py:44-62 | stores the outcome; "Batted Ball" moves to `select_batted_result` with `hit_data` unchanged; any other outcome appends exactly one record copying date, opponent and hitter with the outcome and all batted-ball fields and coordinates `None`, and moves to `reset`, or keeps its stage when the insert raises |
| `AtBatTracker.SessionState.SelectBattedResult` | at_bat_tracker.py:64-66 | stores the result and moves to `select_contact_type`, touching nothing else |
| `AtBatTracker.SessionState.SelectContactType` | at_bat_tracker.py:68-71 | stores the contact type, clears the last click and moves to `log_hit_location`, touching nothing else |
| `AtBatTracker.SessionState.LogHitLocation` | at_bat_tracker.py:110-133 | a click with an x coordinate stores the click, appends exactly one record with the session's outcome, batted result and contact type and the click's x/y, and moves to `plot_hit_location`, or stays in `log_hit_location` when the insert raises; without such a click nothing changes |
| `AtBatTracker.SessionState.LogAnotherAtBat` | at_bat_tracker.py:73-75 | stage becomes `game_details` and the last click `None`; records, game details and classification fields are kept |
| `AtBatTracker.SessionState.PlottedPoints` | at_bat_tracker.py:144-147 | the chart loop as written draws one point per record whose coordinates are both present and non-zero, in record order; a point is drawn iff some record carries it and neither coordinate is 0 |
| `AtBatWorkflow.StepAppendsAtMostOne` | at_bat_tracker.py:44-133 | one action never changes or removes existing records and appends at most one, exactly when it is a non-batted outcome or a click with an x; if the insert returns, an offered action appends iff it enters `reset` or `plot_hit_location`; if it raises, the stage is unchanged |
| `AtBatWorkflow.RunOnlyAppends` | at_bat_tracker.py:44-133 | over any sequence of actions the earlier `hit_data` stays a prefix and grows by at most one record per action |
| `AtBatWorkflow.StepPreservesConsistent` | at_bat_tracker.py:38-133 | every action the current screen offers keeps the session invariant: records complete for their outcome, and the in-progress at-bat's fields set as far as its stage |
| `AtBatWorkflow.RunPreservesConsistent` | at_bat_tracker.py:38-133 | the invariant holds after any playable sequence of actions |
| `AtBatWorkflow.ReachableRecordsAreGated` | at_bat_tracker.py:44-128 | in every session reachable from a fresh one, a record with a coordinate has outcome "Batted Ball" and a batted result and contact type; a record without an x coordinate has neither, and no y; every "Batted Ball" record has an x coordinate, so none is committed part-way; opponent and hitter are non-empty |
| `AtBatWorkflow.LabelsAreDistinct` | at_bat_tracker.py:91-108 | the button strings are pairwise distinct, and an outcome's label is "Batted Ball" iff it is `BattedBall`, so the model's comparisons decide what the string test at line 46 decides |
| `SprayChart.PlotPointsAppend` | at_bat_tracker.py:145-147 | for any per-record filter, the points drawn for two runs of records are the two runs' points concatenated |
| `SprayChart.PlotPointsAsWrittenExactly` | at_bat_tracker.py:145-147 | the loop as written draws a point exactly when some record carries it as its x and y and neither is 0 |
| `SprayChart.PlotPointsExactly` | at_bat_tracker.py:145-147 | the corrected chart draws a point exactly when some record carries it as its x and y |
| `SprayChart.EdgeClickIsNotPlottedAsWritten` | at_bat_tracker.py:145-146 | a click at x = 0 commits a record; the chart as written stays as it was, while the corrected chart gains the point |
| `SprayChart.ClickedHitIsPlotted` | at_bat_tracker.py:115-147 | with the corrected filter, a click reporting both coordinates adds exactly its point to the chart |

## Findings

| source | as written | input that shows it | evidently intended | confidence | as-written member | corrected member |
|---|---|---|---|---|---|---|
| at_bat_tracker.py:146 | `if hit["x_coordinate"] and hit["y_coordinate"]` tests truthiness, so a coordinate of 0 counts as missing, while line 115 logs any click whose x `is not None` | a click at pixel x = 0 (left edge of the field image) is appended to `hit_data` but not drawn | draw every record whose coordinates are not `None` | medium; not executed | `SprayChart.EdgeClickIsNotPlottedAsWritten` | `SprayChart.ClickedHitIsPlotted` |

The chart method `AtBatTracker.SessionState.PlottedPoints` models the loop as written. `SprayChart.PlotPoints` is the corrected chart.

## Left out

- `get_bigquery_client` and `log_to_bigquery` (lines 13-26): network I/O with credentials. Only whether the insert raises is modelled, as the `insertRaises` flag. The error or success message and the rows stored in the warehouse are not modelled.
- SprayChart.PlotPointsExactly: states the corrected chart, not the loop at lines 145-147, which also skips coordinates of 0. The loop as written is `AtBatTracker.SessionState.PlottedPoints` and `SprayChart.PlotPointsAsWrittenExactly`.
- SprayChart.ClickedHitIsPlotted: states the corrected chart. As written, a click with a coordinate of 0 adds no point (`SprayChart.EdgeClickIsNotPlottedAsWritten`).
- Streamlit rendering (`st.image`, `st.title`, `st.header`, `st.write`, `st.columns`, `st.button`, `st.error`/`st.success`, `st.experimental_rerun`): UI plumbing. Button clicks are method calls and widget values are parameters.
- `streamlit_image_coordinates`, PIL and matplotlib (lines 112-113, 137-149): foreign libraries. Only the choice of plotted points is kept.
- `uuid.uuid4()`: ids are parameters. Their uniqueness is not modelled.
- A click dictionary without a "y" key would raise `KeyError` at line 127. A click is modelled as two optional coordinates, so that case is not represented.
- The callbacks accept any string in Python. The model restricts their arguments to the values the buttons pass.
- `img_click_data` is written (lines 71, 75, 116) but never read by the code. The model keeps it as a field with no further property.
- The batting metrics, catalog extension, history listing/deletion and edit flow of the wider application are not in `at_bat_tracker.py` and are not part of this model.
