/** The form hook: three maps keyed by field name (the values, the error
    messages, and which fields the user has touched), updated one field at a
    time and reset to the initial values. */
module Form {

  datatype FormState<V> = FormState(
    values: map<string, V>,
    errors: map<string, string>,
    touched: map<string, bool>)

  /** The state the hook starts in and `reset` returns to. */
  function Initial<V>(initialState: map<string, V>): (s: FormState<V>)
    ensures s.values == initialState && s.errors == map[] && s.touched == map[]
  {
    FormState(initialState, map[], map[])
  }

  /** `handleChange(field, value)`: the value set, the field touched, its error cleared. */
  function Change<V>(s: FormState<V>, field: string, value: V): FormState<V> {
    FormState(s.values[field := value], s.errors[field := ""], s.touched[field := true])
  }

  /** `setFieldError(field, error)`. */
  function SetError<V>(s: FormState<V>, field: string, error: string): FormState<V> {
    s.(errors := s.errors[field := error])
  }

  // -------------------------------------------------------- one operation

  /** A change writes the three entries of its field and leaves every other key of
      every map exactly as it was. */
  lemma ChangeEffect<V>(s: FormState<V>, field: string, value: V)
    ensures var r := Change(s, field, value);
            && r.values[field] == value && r.touched[field] && r.errors[field] == ""
            && r.values - {field} == s.values - {field}
            && r.errors - {field} == s.errors - {field}
            && r.touched - {field} == s.touched - {field}
  {
  }

  /** Setting an error touches only that field's error. */
  lemma SetErrorEffect<V>(s: FormState<V>, field: string, error: string)
    ensures var r := SetError(s, field, error);
            && r.errors[field] == error
            && r.errors - {field} == s.errors - {field}
            && r.values == s.values && r.touched == s.touched
  {
  }

  /** Typing into a field wipes the error set on it before, as if it had never been set. */
  lemma ChangeClearsError<V>(s: FormState<V>, field: string, error: string, value: V)
    ensures Change(SetError(s, field, error), field, value) == Change(s, field, value)
    ensures Change(SetError(s, field, error), field, value).errors[field] == ""
  {
  }

  /** The same change twice is the same change once. */
  lemma ChangeIdempotent<V>(s: FormState<V>, field: string, value: V)
    ensures Change(Change(s, field, value), field, value) == Change(s, field, value)
  {
  }

  // --------------------------------------------------------------- history

  datatype Action<V> = HandleChange(field: string, value: V) | SetFieldError(field: string, error: string) | Reset

  function Step<V>(initialState: map<string, V>, s: FormState<V>, a: Action<V>): FormState<V> {
    match a
    case HandleChange(f, v) => Change(s, f, v)
    case SetFieldError(f, e) => SetError(s, f, e)
    case Reset => Initial(initialState)
  }

  /** The state after a sequence of calls, starting from the initial one. */
  function Run<V>(initialState: map<string, V>, actions: seq<Action<V>>): FormState<V> {
    if actions == [] then Initial(initialState)
    else Step(initialState, Run(initialState, actions[..|actions| - 1]), actions[|actions| - 1])
  }

  /** Whatever happened before, `reset` brings back the initial state. */
  lemma ResetForgetsHistory<V>(initialState: map<string, V>, actions: seq<Action<V>>)
    ensures Run(initialState, actions + [Reset]) == Initial(initialState)
  {
    assert (actions + [Reset])[..|actions|] == actions;
  }

  /** What every history keeps: `touched` only records `true`; the values cover the
      initial fields and the touched ones, nothing else; and a field never changed
      since the last reset still holds its initial value. */
  ghost predicate Consistent<V>(initialState: map<string, V>, s: FormState<V>) {
    && (forall g :: g in s.touched ==> s.touched[g])
    && s.values.Keys == initialState.Keys + s.touched.Keys
    && (forall g :: g in initialState && g !in s.touched ==> s.values[g] == initialState[g])
  }

  lemma {:induction false} RunConsistent<V>(initialState: map<string, V>, actions: seq<Action<V>>)
    ensures Consistent(initialState, Run(initialState, actions))
  {
    if actions != [] {
      RunConsistent(initialState, actions[..|actions| - 1]);
    }
  }

  /** The touched fields are exactly the fields changed since the last reset. */
  function ChangedSinceReset<V>(actions: seq<Action<V>>): set<string> {
    if actions == [] then {}
    else
      match actions[|actions| - 1]
      case HandleChange(f, _) => ChangedSinceReset(actions[..|actions| - 1]) + {f}
      case SetFieldError(_, _) => ChangedSinceReset(actions[..|actions| - 1])
      case Reset => {}
  }

  lemma {:induction false} TouchedAreChanged<V>(initialState: map<string, V>, actions: seq<Action<V>>)
    ensures Run(initialState, actions).touched.Keys == ChangedSinceReset(actions)
  {
    if actions != [] {
      TouchedAreChanged(initialState, actions[..|actions| - 1]);
    }
  }

  // ------------------------------------------------------------------ hook

  class FormHook<V> {
    const initialState: map<string, V>
    var values: map<string, V>
    var errors: map<string, string>
    var touched: map<string, bool>

    function State(): FormState<V>
      reads this
    {
      FormState(values, errors, touched)
    }

    constructor(initialState: map<string, V>)
      ensures this.initialState == initialState
      ensures State() == Initial(initialState)
    {
      this.initialState := initialState;
      values := initialState;
      errors := map[];
      touched := map[];
    }

    method HandleChange(field: string, value: V)
      modifies this
      ensures State() == Change(old(State()), field, value)
    {
      values := values[field := value];
      touched := touched[field := true];
      errors := errors[field := ""];
    }

    method SetFieldError(field: string, error: string)
      modifies this
      ensures State() == SetError(old(State()), field, error)
    {
      errors := errors[field := error];
    }

    method Reset()
      modifies this
      ensures State() == Initial(initialState)
    {
      values := initialState;
      errors := map[];
      touched := map[];
    }
  }
}
