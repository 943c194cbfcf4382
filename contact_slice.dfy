/**
 The contact-form slice of the portfolio's store: a record of form fields
 keyed by name, an initial state with `name`, `email` and `message` all
 empty, and two reducers. `updateField` writes one value under a key the
 caller chooses; `resetForm` empties the three known fields.

 The state is a `map<string, string>` rather than a three-field record,
 because `updateField` indexes the state by an arbitrary string and so can
 add keys the initial state does not have.
 */
module ContactSlice {

  /** The slice state: field name to field value. */
  type FormState = map<string, string>

  /** The three fields the initial state declares and `resetForm` clears. */
  const FormFields: set<string> := {"name", "email", "message"}

  /** The actions that reach the slice's reducer. `Unhandled` stands for
      every action of another slice (the theme slice shares the store). */
  datatype Action =
    | UpdateField(field: string, value: string)
    | ResetForm
    | Unhandled

  /** The slice's initial state: the three form fields, each empty. */
  function Initial(): (s: FormState)
    ensures s.Keys == FormFields
    ensures forall k :: k in s ==> s[k] == ""
  {
    map["name" := "", "email" := "", "message" := ""]
  }

  /** The state after `updateField({field, value})`. */
  function Updated(s: FormState, field: string, value: string): (r: FormState)
    ensures field in r && r[field] == value
    ensures r.Keys == s.Keys + {field}
    ensures forall k :: k in s && k != field ==> r[k] == s[k]
  {
    s[field := value]
  }

  /** The state after `resetForm()`. */
  function Reset(s: FormState): (r: FormState)
    ensures r.Keys == s.Keys + FormFields
    ensures forall k :: k in FormFields ==> r[k] == ""
    ensures forall k :: k in s && k !in FormFields ==> r[k] == s[k]
  {
    s["name" := ""]["email" := ""]["message" := ""]
  }

  /** The slice reducer: one action applied to one state. It never drops a
      key, and the only keys it can add are the form fields or the field an
      update names. */
  function Reduce(s: FormState, a: Action): (r: FormState)
    ensures s.Keys <= r.Keys
    ensures r.Keys <= s.Keys + FormFields + WrittenKeys([a])
    ensures a.Unhandled? ==> r == s
  {
    match a
    case UpdateField(field, value) => Updated(s, field, value)
    case ResetForm => Reset(s)
    case Unhandled => s
  }

  /** The state after the store dispatches `acts` in order, starting from `s`. */
  function Replay(s: FormState, acts: seq<Action>): (r: FormState)
    decreases |acts|
  {
    if acts == [] then s else Replay(Reduce(s, acts[0]), acts[1..])
  }

  /** The keys that the updates in `acts` write. */
  function WrittenKeys(acts: seq<Action>): (w: set<string>)
  {
    if acts == [] then {}
    else (if acts[0].UpdateField? then {acts[0].field} else {}) + WrittenKeys(acts[1..])
  }

  /** On a state that holds the three form fields, one action adds exactly
      the key its update names, and a reset adds none. */
  lemma ReduceKeys(s: FormState, a: Action)
    requires FormFields <= s.Keys
    ensures Reduce(s, a).Keys == s.Keys + WrittenKeys([a])
  {
  }

  /** Writing the same value under the same key twice is writing it once. */
  lemma UpdatedIdempotent(s: FormState, field: string, value: string)
    ensures Updated(Updated(s, field, value), field, value) == Updated(s, field, value)
  {
  }

  /** A second reset changes nothing. */
  lemma ResetIdempotent(s: FormState)
    ensures Reset(Reset(s)) == Reset(s)
  {
  }

  /** An update under a key the state does not yet hold is not rejected:
      it adds that key, so the key set grows by one. */
  lemma UpdateOutsideGrowsKeys(s: FormState, field: string, value: string)
    requires field !in s
    ensures |Updated(s, field, value)| == |s| + 1
  {
  }

  /** A reset discards any edit of one of the three form fields made just
      before it. */
  lemma ResetDiscardsFormEdit(s: FormState, field: string, value: string)
    requires field in FormFields
    ensures Reset(Updated(s, field, value)) == Reset(s)
  {
  }

  /** A key outside the three form fields survives a reset with its value,
      so the reset does not restore the initial state. */
  lemma ExtraKeySurvivesReset(field: string, value: string)
    requires field !in FormFields
    ensures field in Reset(Updated(Initial(), field, value))
    ensures Reset(Updated(Initial(), field, value))[field] == value
    ensures Reset(Updated(Initial(), field, value)) != Initial()
  {
  }

  /** Dispatching a sequence of actions from a state that holds the three
      form fields adds exactly the keys the updates name. */
  lemma {:induction false} ReplayKeys(s: FormState, acts: seq<Action>)
    requires FormFields <= s.Keys
    ensures Replay(s, acts).Keys == s.Keys + WrittenKeys(acts)
    decreases |acts|
  {
    if acts != [] {
      var t := Reduce(s, acts[0]);
      ReduceKeys(s, acts[0]);
      ReplayKeys(t, acts[1..]);
      assert WrittenKeys(acts) == WrittenKeys([acts[0]]) + WrittenKeys(acts[1..]);
    }
  }

  /** From the initial state, any sequence of actions leaves the three form
      fields present. */
  lemma ReplayKeepsFormFields(acts: seq<Action>)
    ensures FormFields <= Replay(Initial(), acts).Keys
  {
    ReplayKeys(Initial(), acts);
  }

  /** A reset after any sequence of actions from the initial state restores
      the initial state exactly when no update in the sequence wrote a key
      other than `name`, `email` and `message`. */
  lemma ResetRestoresInitial(acts: seq<Action>)
    ensures Reset(Replay(Initial(), acts)) == Initial() <==> WrittenKeys(acts) <= FormFields
  {
    var r := Reset(Replay(Initial(), acts));
    ReplayKeys(Initial(), acts);
    assert r.Keys == FormFields + WrittenKeys(acts);
    if WrittenKeys(acts) <= FormFields {
      assert r.Keys == Initial().Keys;
      forall k | k in r ensures r[k] == Initial()[k] {
      }
    }
  }

  /** The contact slice as the store holds it: one mutable state that each
      reducer changes in place. */
  class ContactForm {
    var state: FormState

    /** The three form fields are always present. */
    ghost predicate Valid()
      reads this
    {
      FormFields <= state.Keys
    }

    constructor ()
      ensures Valid()
      ensures state == Initial()
    {
      state := Initial();
    }

    /** `updateField`: write `value` under `field`, nothing else. */
    method UpdateField(field: string, value: string)
      requires Valid()
      modifies this
      ensures Valid()
      ensures state == Updated(old(state), field, value)
    {
      state := state[field := value];
    }

    /** `resetForm`: empty `name`, `email` and `message`, nothing else. */
    method ResetForm()
      requires Valid()
      modifies this
      ensures Valid()
      ensures state == Reset(old(state))
      ensures state.Keys == old(state).Keys
    {
      state := state["name" := ""];
      state := state["email" := ""];
      state := state["message" := ""];
    }

    /** Route one dispatched action to its reducer. */
    method Dispatch(a: Action)
      requires Valid()
      modifies this
      ensures Valid()
      ensures state == Reduce(old(state), a)
      ensures state.Keys == old(state).Keys + WrittenKeys([a])
    {
      ReduceKeys(state, a);
      match a {
        case UpdateField(field, value) => this.UpdateField(field, value);
        case ResetForm => this.ResetForm();
        case Unhandled =>
      }
    }
  }
}
