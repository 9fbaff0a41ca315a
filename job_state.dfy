/**
 * The trainer's job state (trainer/src/state.py): one live dictionary that
 * starts with eight default entries and is merged into by `set_state`, copied
 * by `get_state` and merged with the defaults again by `reset_state`. Each of
 * the three runs under one lock, so each is one atomic method here.
 */
module JobState {

  /** A value stored in the state dictionary. */
  datatype Value = Null | Str(text: string) | Int(i: int) | Num(x: real)

  /**
   * A key of the dictionary: one of the eight it is created with, or any
   * other keyword a caller of `set_state` passes (`Other`, spelled `name`).
   * The name of an `Other` key is never one of the eight spellings, so each
   * `str` key of the Python dict has exactly one `Key`.
   */
  datatype Key =
    | Status | Progress | Epoch | Accuracy | Loss | StartedAt | FinishedAt | LastError
    | Other(name: ExtraName)

  /** The dictionary: key to value. */
  type State = map<Key, Value>

  const StatusKey: Key := Status
  const ProgressKey: Key := Progress
  const EpochKey: Key := Epoch
  const AccuracyKey: Key := Accuracy
  const LossKey: Key := Loss
  const StartedAtKey: Key := StartedAt
  const FinishedAtKey: Key := FinishedAt
  const LastErrorKey: Key := LastError

  /** The eight keys the dictionary is created with. */
  const KnownKeys: set<Key> :=
    {StatusKey, ProgressKey, EpochKey, AccuracyKey, LossKey, StartedAtKey, FinishedAtKey, LastErrorKey}

  /** The spellings of the eight keys. */
  const KnownNames: set<string> :=
    {"status", "progress", "epoch", "accuracy", "loss", "started_at", "finished_at", "last_error"}

  /** A keyword spelled differently from the eight. */
  type ExtraName = name: string | name !in KnownNames witness ""

  /** The Python spelling of a key. */
  function Spelling(k: Key): string {
    match k
    case Status => "status"
    case Progress => "progress"
    case Epoch => "epoch"
    case Accuracy => "accuracy"
    case Loss => "loss"
    case StartedAt => "started_at"
    case FinishedAt => "finished_at"
    case LastError => "last_error"
    case Other(name) => name
  }

  /**
   * Keys are told apart by their spelling, so a map over `Key` is a
   * dictionary over Python `str` keys.
   */
  lemma SpellingInjective(a: Key, b: Key)
    requires Spelling(a) == Spelling(b)
    ensures a == b
  {
    if !a.Other? && !b.Other? {
      assert |Spelling(a)| == |Spelling(b)|;
      assert Spelling(a)[0] == Spelling(b)[0];
      if |Spelling(a)| == 10 {
        assert Spelling(a)[1] == Spelling(b)[1];
      }
    }
  }

  /**
   * The dictionary literal the module starts with, which `reset_state`
   * writes back: idle, no progress, epoch 0, every optional field `None`.
   */
  function Defaults(): (d: State)
    ensures d.Keys == KnownKeys
    ensures d[StatusKey] == Str("idle") && d[ProgressKey] == Num(0.0) && d[EpochKey] == Int(0)
    ensures forall k :: k in d && k !in {StatusKey, ProgressKey, EpochKey} ==> d[k] == Null
  {
    map[StatusKey := Str("idle"), ProgressKey := Num(0.0), EpochKey := Int(0),
        AccuracyKey := Null, LossKey := Null, StartedAtKey := Null,
        FinishedAtKey := Null, LastErrorKey := Null]
  }

  /**
   * `dict.update(kwargs)`: every given key now holds its given value, every
   * other key keeps its value, and no key disappears.
   */
  function Update(s: State, kwargs: State): (r: State)
    ensures r.Keys == s.Keys + kwargs.Keys
    ensures forall k :: k in kwargs ==> r[k] == kwargs[k]
    ensures forall k :: k in s && k !in kwargs ==> r[k] == s[k]
  {
    s + kwargs
  }

  /** `reset_state`: the defaults merged into the live dictionary. */
  function Reset(s: State): (r: State)
    ensures forall k :: k in KnownKeys ==> k in r && r[k] == Defaults()[k]
    ensures forall k :: k in s && k !in KnownKeys ==> k in r && r[k] == s[k]
    ensures r.Keys == s.Keys + KnownKeys
  {
    Update(s, Defaults())
  }

  /** `state[key]` when present, `None` otherwise (Python's `dict.get`). */
  function Get(s: State, key: Key): Value {
    if key in s then s[key] else Null
  }

  /** The state carries the status `"training"`. */
  predicate IsTraining(s: State) {
    StatusKey in s && s[StatusKey] == Str("training")
  }

  /** A sequence of `set_state` calls, applied in order. */
  function ApplyAll(s: State, updates: seq<State>): State
    decreases |updates|
  {
    if updates == [] then s else ApplyAll(Update(s, updates[0]), updates[1..])
  }

  /** Keys only ever get added: the result holds every key of `s`. */
  lemma {:induction false} ApplyAllKeys(s: State, updates: seq<State>)
    ensures s.Keys <= ApplyAll(s, updates).Keys
    decreases |updates|
  {
    if updates != [] {
      ApplyAllKeys(Update(s, updates[0]), updates[1..]);
    }
  }

  /** Updates that only name known keys keep the dictionary on the known keys. */
  lemma {:induction false} ApplyAllStaysKnown(s: State, updates: seq<State>)
    requires s.Keys <= KnownKeys
    requires forall i :: 0 <= i < |updates| ==> updates[i].Keys <= KnownKeys
    ensures ApplyAll(s, updates).Keys <= KnownKeys
    decreases |updates|
  {
    if updates != [] {
      ApplyAllStaysKnown(Update(s, updates[0]), updates[1..]);
    }
  }

  /** Resetting twice is resetting once. */
  lemma ResetIdempotent(s: State)
    ensures Reset(Reset(s)) == Reset(s)
  {
  }

  /**
   * Whatever sequence of `set_state` calls came before, `reset_state` leaves
   * the eight known keys at their defaults, and every other key that was set
   * on the way survives it.
   */
  lemma {:induction false} ResetAfterUpdates(s: State, updates: seq<State>)
    ensures forall k :: k in KnownKeys ==> Reset(ApplyAll(s, updates))[k] == Defaults()[k]
    ensures forall k :: k in s && k !in KnownKeys ==> k in Reset(ApplyAll(s, updates))
  {
    ApplyAllKeys(s, updates);
  }

  /**
   * Starting from the initial dictionary, any sequence of updates that only
   * names the eight known keys followed by a reset gives back exactly the
   * initial dictionary.
   */
  lemma {:induction false} ResetRestoresInitial(updates: seq<State>)
    requires forall i :: 0 <= i < |updates| ==> updates[i].Keys <= KnownKeys
    ensures Reset(ApplyAll(Defaults(), updates)) == Defaults()
  {
    ApplyAllStaysKnown(Defaults(), updates);
    var r := Reset(ApplyAll(Defaults(), updates));
    assert r.Keys == KnownKeys;
  }

  /** A key added by `set_state` outside the eight defaults survives a reset. */
  lemma ResetKeepsExtraKey(s: State, key: Key, v: Value)
    requires key !in KnownKeys
    ensures key in Reset(Update(s, map[key := v])) && Reset(Update(s, map[key := v]))[key] == v
  {
  }

  /** The live dictionary with its lock (`_lock`). */
  class Store {
    var state: State

    /** The dictionary always holds the eight keys it was created with. */
    ghost predicate Valid()
      reads this
    {
      KnownKeys <= state.Keys
    }

    /** Module load: the initial dictionary. */
    constructor ()
      ensures Valid() && state == Defaults()
    {
      state := Defaults();
    }

    /** `set_state(**kwargs)` */
    method SetState(kwargs: State)
      requires Valid()
      modifies this
      ensures Valid()
      ensures state == Update(old(state), kwargs)
    {
      state := state + kwargs;
    }

    /**
     * `get_state()`: a copy of the live dictionary. Dafny maps are values,
     * so later updates of the store cannot alter the copy.
     */
    method GetState() returns (snapshot: State)
      ensures snapshot == state
    {
      snapshot := state;
    }

    /** `reset_state()` */
    method ResetState()
      requires Valid()
      modifies this
      ensures Valid()
      ensures state == Reset(old(state))
    {
      state := state + Defaults();
    }
  }

  /**
   * A snapshot taken with `get_state` still equals the state of that moment
   * after later `set_state` and `reset_state` calls.
   */
  method SnapshotIsolated(store: Store, kwargs: State) returns (snapshot: State)
    requires store.Valid()
    modifies store
    ensures snapshot == old(store.state)
    ensures store.state == Reset(Update(snapshot, kwargs))
  {
    snapshot := store.GetState();
    store.SetState(kwargs);
    store.ResetState();
  }
}
