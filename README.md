# Contact-form slice of the portfolio store

This project models the contact-form slice of the portfolio site's Redux
store (`src/redux/contactSlice.js`). The slice holds the values of the
contact form's fields, keyed by field name. It starts with `name`, `email`
and `message` all empty. Two reducers change it in place:

- `updateField({field, value})` writes `value` under `field`. The key is
  whatever string the caller passes, so the state can gain keys beyond
  the three form fields.
- `resetForm()` sets `name`, `email` and `message` back to the empty string
  and touches nothing else, so an extra key written by `updateField`
  survives a reset.

The model (`contact_slice.dfy`, module `ContactSlice`) has two layers:

- Pure functions give the meaning of each reducer on a `map<string, string>`
  state: `Initial`, `Updated`, `Reset`, the reducer `Reduce` over an
  `Action`, and `Replay` for a sequence of dispatched actions. Lemmas about
  them state idempotence, what a reset discards and keeps, and when a reset
  restores the initial state.
- The class `ContactForm` holds the state as a mutable field, as the store
  does. Its methods `UpdateField`, `ResetForm` and `Dispatch` change that
  field in place and are proved equal to the functions above. They also
  keep the invariant that the three form fields are always present.

The contact form has no validation, and the model has none either.

## Model

| member | source | states |
|---|---|---|
| ContactSlice.Initial | src/redux/contactSlice.js:5 | The initial state has exactly the keys `name`, `email`, `message`, each mapped to the empty string. |
| ContactSlice.Updated | src/redux/contactSlice.js:7-9 | After `updateField`, `field` maps to `value`, the key set is the old one plus `field`, and every other key keeps its value. |
| ContactSlice.Reset | src/redux/contactSlice.js:10-14 | After `resetForm`, `name`, `email` and `message` map to the empty string, the key set gains at most those three, and every other key keeps its value. |
| ContactSlice.Reduce | src/redux/contactSlice.js:6-15 | The slice reducer never drops a key; it adds only form fields or the key an update names; an action of another slice leaves the state unchanged. |
| ContactSlice.ReduceKeys | src/redux/contactSlice.js:6-15 | On a state holding the three form fields, an update adds exactly the key it names and a reset or another slice's action adds no key. |
| ContactSlice.UpdatedIdempotent | src/redux/contactSlice.js:8 | Applying the same `updateField(field, value)` twice gives the same state as applying it once. |
| ContactSlice.ResetIdempotent | src/redux/contactSlice.js:10-14 | A second `resetForm` changes nothing. |
| ContactSlice.UpdateOutsideGrowsKeys | src/redux/contactSlice.js:8 | `updateField` under a key the state does not hold inserts it instead of rejecting it: the state gains exactly one key. |
| ContactSlice.ResetDiscardsFormEdit | src/redux/contactSlice.js:7-14 | A reset right after an edit of `name`, `email` or `message` gives the same state as the reset alone. |
| ContactSlice.ExtraKeySurvivesReset | src/redux/contactSlice.js:5-14 | A key outside the three form fields, written from the initial state, keeps its value through a reset, so the reset does not give back the initial state. |
| ContactSlice.ReplayKeys | src/redux/contactSlice.js:6-15 | Dispatching any sequence of actions from a state holding the three form fields adds exactly the keys its updates write. |
| ContactSlice.ReplayKeepsFormFields | src/redux/contactSlice.js:5-15 | From the initial state, `name`, `email` and `message` stay present after any sequence of actions. |
| ContactSlice.ResetRestoresInitial | src/redux/contactSlice.js:5-14 | A reset after any sequence of actions from the initial state restores the initial state if and only if no update in the sequence wrote a key other than the three form fields. |
| ContactSlice.ContactForm.constructor | src/redux/contactSlice.js:5 | The store's slice starts at the initial state. |
| ContactSlice.ContactForm.UpdateField | src/redux/contactSlice.js:7-9 | The in-place update leaves the state equal to `Updated` of the old state and keeps the three form fields present. |
| ContactSlice.ContactForm.ResetForm | src/redux/contactSlice.js:10-14 | The three in-place assignments leave the state equal to `Reset` of the old state, keep the three form fields present, and so leave the key set as it was. |
| ContactSlice.ContactForm.Dispatch | src/redux/store.js:5-10 | An action dispatched to the store moves the contact state to `Reduce` of the old state, so actions of the theme slice leave it unchanged; the key set grows by exactly the key an update names. |

## Left out

- Redux Toolkit and Immer (`createSlice`, the generated action creators, `configureStore`, the `Provider`): library code that is not part of this model. Each reducer is modelled directly as a state change, and an action meant for another slice as `Unhandled`.
- JavaScript property keys: the source may be given a non-string, non-Symbol `field`, which JavaScript turns into a string, or a Symbol, which stays a Symbol key; special keys such as `__proto__` behave differently on an object. The model takes `field` as a string and treats every key as an ordinary map key; Symbol keys are not modelled.
- A malformed `updateField` action: when its payload is missing (`undefined` or `null`), reading `payload.field` throws, dispatch throws, and the store keeps its old state. `Action.UpdateField` always carries a field and a value, so this error path is not modelled; the contact form always passes both (src/components/Contact.jsx:22, 29, 35).
- ContactSlice.Updated: payload values are modelled as strings (what the form's inputs supply); the source stores any JavaScript value.
- The theme slice: its source (`themeSlice.js`) is not part of this model, so `toggleTheme` is not modelled.
- The chat component: a network client around a remote endpoint with React state setters, not self-contained logic.
- The contact, hero, navbar, projects and toggle components: view markup and animation with no logic beyond dispatching the two reducers.
- Form validation: the contact form has none, so none is modelled.
