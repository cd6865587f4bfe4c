/**
 * The initialisation that runs at the top of every rerun of the tracker
 * script: each of the nine session keys that is missing gets its default,
 * and a key that is already there keeps its value.
 */
module SessionInit {
  import opened Wrappers
  import opened AtBatWorkflow

  datatype Key =
    | StageKey | HitDataKey | ImgClickDataKey | DateKey | OpponentKey
    | HitterNameKey | OutcomeKey | BattedResultKey | ContactTypeKey

  /** A value stored under a session key. */
  datatype Value =
    | NoneValue
    | StageValue(stage: Stage)
    | RecordsValue(records: seq<HitRecord>)
    | ClickValue(click: Click)
    | TextValue(text: string)
    | OutcomeValue(outcome: Outcome)
    | BattedResultValue(result: BattedResult)
    | ContactTypeValue(contact: ContactType)

  /** The keys in the order the initialisation loop visits them. */
  const SessionKeys: seq<Key> := [StageKey, HitDataKey, ImgClickDataKey, DateKey, OpponentKey,
                                  HitterNameKey, OutcomeKey, BattedResultKey, ContactTypeKey]

  /** What a missing key is set to. */
  function Default(k: Key): Value {
    if k == HitDataKey then RecordsValue([])
    else if k == StageKey then StageValue(GameDetails)
    else NoneValue
  }

  /** `r` is what initialising the state `st` leaves: every session key is
      present, keys already present are untouched, and every added key holds
      its default. */
  predicate InitializedFrom(st: map<Key, Value>, r: map<Key, Value>) {
    && (forall k :: k in r <==> k in st || k in SessionKeys)
    && (forall k :: k in st ==> r[k] == st[k])
    && (forall k :: k in r && k !in st ==> r[k] == Default(k))
  }

  method InitializeSessionState(st: map<Key, Value>) returns (r: map<Key, Value>)
    ensures InitializedFrom(st, r)
  {
    r := st;
    for i := 0 to |SessionKeys|
      invariant forall k :: k in r <==> k in st || k in SessionKeys[..i]
      invariant forall k :: k in st ==> r[k] == st[k]
      invariant forall k :: k in r && k !in st ==> r[k] == Default(k)
    {
      var key := SessionKeys[i];
      if key !in r {
        if key == HitDataKey {
          r := r[key := RecordsValue([])];
        } else {
          r := r[key := if key != StageKey then NoneValue else StageValue(GameDetails)];
        }
      }
    }
  }

  function OptionalText(v: Option<string>): Value {
    match v
    case Some(t) => TextValue(t)
    case None => NoneValue
  }

  /** The session record as the key/value state it is kept in. */
  function Encode(s: Session): map<Key, Value> {
    map[StageKey := StageValue(s.stage),
        HitDataKey := RecordsValue(s.hitData),
        ImgClickDataKey := (match s.imgClickData case Some(c) => ClickValue(c) case None => NoneValue),
        DateKey := OptionalText(s.date),
        OpponentKey := OptionalText(s.opponent),
        HitterNameKey := OptionalText(s.hitterName),
        OutcomeKey := (match s.outcome case Some(o) => OutcomeValue(o) case None => NoneValue),
        BattedResultKey := (match s.battedResult case Some(b) => BattedResultValue(b) case None => NoneValue),
        ContactTypeKey := (match s.contactType case Some(c) => ContactTypeValue(c) case None => NoneValue)]
  }

  /** A brand-new session is initialised to stage `game_details`, an empty
      `hit_data` and `None` everywhere else. */
  lemma FreshSessionIsInitial(r: map<Key, Value>)
    requires InitializedFrom(map[], r)
    ensures r == Encode(Initial())
  {
  }

  /** A rerun of the script does not reset a session that already holds all
      its keys. */
  lemma RerunKeepsSession(s: Session, r: map<Key, Value>)
    requires InitializedFrom(Encode(s), r)
    ensures r == Encode(s)
  {
  }

  /** Initialising twice leaves the state as initialising once. */
  lemma InitializationIsIdempotent(st: map<Key, Value>, r: map<Key, Value>, r2: map<Key, Value>)
    requires InitializedFrom(st, r) && InitializedFrom(r, r2)
    ensures r2 == r
  {
  }
}
