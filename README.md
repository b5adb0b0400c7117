# Pet registration front end: form state and validation

A Dafny model of the logic in a small React front end for pet registration.
Each pet record has a name, a kind, a sex, an age, a weight, a breed and a
nested address. The model covers:

- the pet form component (`src/PetForm.jsx`). It holds a string-valued
  `form` and an `errors` record. It validates `idade`, `peso` and `numero`
  on every keystroke (`^\d*$`) and again on submit (`^\d+$`, checked in that
  order). It prefills the form from the pet being edited.
- the dashboard component (`src/Dashboard.jsx`). It has its own inline copy
  of the same form logic and also keeps the pet list. The list is fetched on
  mount and refetched after a create or a delete that the server has
  acknowledged. A create request carries the three numeric fields as numbers.

Modules:

- `Digits` (`digits.dfy`): the two regular expressions as predicates on
  strings. It also defines the value of a digit string (what `Number(...)`
  yields once `^\d+$` has passed) and the decimal rendering of an integer
  (what `toString()` yields). Both round trips between them are proved.
- `PetTypes` (`pet_types.dfy`): the form, the address, the errors, the pet
  record, the field names, the blank state and the messages. It also defines
  the outcome of a network call: `Response` for a GET and `Ack` for a POST
  or a DELETE.
- `Validation` (`validation.dfy`): the keystroke check and the ordered
  submit check. Both components write these checks the same way.
- `PetFormComponent` (`pet_form.dfy`): the prefill mapping and the class
  `PetForm`, whose methods replace `form` and `errors`.
- `DashboardComponent` (`dashboard.dfy`): the create payload and the class
  `Dashboard`, whose methods take each request's outcome as a parameter.
- `EditRoundTrip` (`round_trip.dfy`): how the prefill map (numbers to text)
  and the create payload map (text to numbers) relate: they are inverse on
  canonical input.

`peso` is checked against the same `^\d+$` pattern as the other two numeric
fields, so a decimal weight is refused on submit; the model follows the code.

## Model

| member | source | states |
|---|---|---|
| `Digits.NatToString` | src/PetForm.jsx:37-42 | `toString()` of a natural number is a non-empty digit string with no superfluous leading zero, and it starts with '0' exactly when the number is 0 |
| `Digits.IntToString` | src/PetForm.jsx:37-42 | `toString()` of an integer passes `^\d+$` exactly when the integer is non-negative, and is then canonical |
| `Digits.ParseNatToString` | src/Dashboard.jsx:48-52 | `Number` applied to the rendering of a natural number gives that number back |
| `Digits.NatToStringParse` | src/Dashboard.jsx:48-52 | rendering the value of a canonical digit string gives the string back |
| `Digits.ParseDigits` | src/Dashboard.jsx:48-52 | `Number` of a digit string is 0 exactly when every digit is '0' |
| `Digits.ParseLeadingZero` | src/Dashboard.jsx:48-52 | a leading '0' does not change the number a digit string denotes |
| `Digits.StripLeadingZeros` | src/Dashboard.jsx:48-52 | removing superfluous leading zeros gives a canonical digit string with the same value |
| `Digits.RenderParsed` | src/Dashboard.jsx:48-52 | the number any digit string denotes, rendered again, is that string without superfluous leading zeros (`Number("007")` is 7) |
| `PetTypes.Errors.With` | src/PetForm.jsx:59-61 | `{ ...prev, [name]: msg }` sets that field's message and keeps the other two |
| `PetTypes.Address.With` | src/PetForm.jsx:66-67 | `{ ...form.endereco, [name]: value }` gives the named address key the typed value and keeps the other two address values |
| `PetTypes.Form.WithTop` | src/PetForm.jsx:68-69 | `{ ...form, [name]: value }` sets the named top-level field, keeps every other field and leaves the address untouched |
| `Validation.KeystrokeError` | src/PetForm.jsx:57-63 | the keystroke message is "" exactly when the value is all digits (the empty string included), and "Digite apenas números" otherwise |
| `Validation.FirstInvalid` | src/PetForm.jsx:78-89 | the submit check fails on `idade` first, then on `peso`, then on `endereco.numero`; each is reported exactly when the earlier ones pass and it fails `^\d+$` (the empty string fails); nothing is reported exactly when all three pass |
| `Validation.KeystrokeWeakerThanSubmit` | src/PetForm.jsx:57-89 | every value the submit check accepts also shows no keystroke error; the empty string is the only value that shows no keystroke error yet fails on submit |
| `PetFormComponent.PrefillForm` | src/PetForm.jsx:33-45 | a prefilled pet passes all three submit checks exactly when its age, weight and house number are non-negative; a negative age is the first failure reported |
| `PetFormComponent.PetForm.constructor` | src/PetForm.jsx:18-28 | the component starts with the blank form and no errors |
| `PetFormComponent.PetForm.ResetForm` | src/PetForm.jsx:5-16 | the form becomes blank and all three errors become "" |
| `PetFormComponent.PetForm.Prefill` | src/PetForm.jsx:31-50 | with a pet, the form becomes its prefill; with none, the form becomes blank; all errors become "" either way |
| `PetFormComponent.PetForm.HandleChange` | src/PetForm.jsx:53-71 | the typed value is stored in the named field even when it fails the check, and every other field keeps its value; a non-address name leaves the address untouched; for a numeric field, its error becomes "" exactly when the value is all digits and the message otherwise; the other errors are unchanged, and a non-numeric field changes no error |
| `PetFormComponent.PetForm.HandleSubmit` | src/PetForm.jsx:74-93 | on the first failing numeric field, only that field's submit message is set, nothing is handed on and the form is unchanged; when all pass, the current form is handed on and the form and errors are blank afterwards |
| `DashboardComponent.Payload` | src/Dashboard.jsx:46-54 | for every valid form: the create body has no identifier; `nome`, `tipo`, `sexo`, `raca`, `rua` and `cidade` are copied from the form; `idade`, `peso` and `endereco.numero` are non-negative numbers, each rendering back to its text without superfluous leading zeros |
| `DashboardComponent.Dashboard.constructor` | src/Dashboard.jsx:7-18 | the component starts with a blank form and no errors; the fetch on mount (lines 93-95) fills the list when it succeeds and leaves it empty when it fails |
| `DashboardComponent.Dashboard.FetchData` | src/Dashboard.jsx:20-27 | a successful GET replaces the list with the response; a failed one leaves it as it was; nothing else changes |
| `DashboardComponent.Dashboard.HandleSubmit` | src/Dashboard.jsx:29-61 | a validation failure sets only that field's message, issues no request, and leaves the form and list unchanged; otherwise the POST body is the payload of the form; a rejected POST changes nothing; an acknowledged one refetches the list and blanks the form and the errors |
| `DashboardComponent.Dashboard.HandleDelete` | src/Dashboard.jsx:63-70 | the list changes only when the DELETE is acknowledged and the refetch succeeds; a failed delete leaves the pet listed |
| `DashboardComponent.Dashboard.HandleChange` | src/Dashboard.jsx:72-91 | the same per-field rule as the pet form: the value is stored, other fields are kept, and only the named numeric field's error changes (to "" exactly when the value is all digits); the list is untouched |
| `EditRoundTrip.PayloadOfPrefill` | src/Dashboard.jsx:46-54 | for a pet with non-negative numbers, the prefill map yields a valid form and the payload map then gives back the record without its identifier |
| `EditRoundTrip.PrefillOfPayload` | src/PetForm.jsx:33-45 | a form whose numeric texts are canonical digit strings is valid, and the prefill map undoes the payload map on it |
| `EditRoundTrip.PayloadAbsorbsPrefill` | src/Dashboard.jsx:46-54 | for any valid form, leading zeros included, applying the prefill map and then the payload map to its payload gives the same payload |

## Left out

- Markup, styling, and the browser's `required` attribute. The browser may refuse to submit an empty text field before `handleSubmit` runs. The model does not include this.
- Field names: `name` ranges over the nine inputs the forms render. A name outside them cannot reach `handleChange`, so the JavaScript behaviour of adding an unknown key is not modelled.
- `DashboardComponent.Dashboard.HandleChange`: the form type always carries an address. So the `&& form.endereco` guard always holds here. Its fallback branch, which writes an address key at the top level of a form without an address, is not modelled. The dashboard never holds such a form, because `petForm` is always created and reset with an `endereco`.
- Network transport, URLs, and `console.error` logging. Each request is an outcome passed in as a parameter. The identifier in `handleDelete` only builds the URL, so it is not a parameter.
- Asynchrony: a refetch after a create or delete is not awaited. The model applies its result in the same step as the reset. The final state is the same, but the moment the list changes is not modelled.
- `useEffect` scheduling: `Prefill` and the mount fetch are explicit calls. When React runs them is not modelled.
- `Payload`: `Number(...)` is modelled as the exact value of the digit string. JavaScript numbers are doubles, so digit strings above 2^53 would round. That rounding is not modelled.
- `PrefillForm`: pet records always have every field, an address and integer numbers. The prefill effect throws a TypeError when `pet.endereco` is missing or when `idade`, `peso` or `endereco.numero` is null or undefined. That error path is not modelled.
- `PrefillForm`: pet numbers are modelled as integers. A non-integer weight or age sent by the server, and `toString()`'s exponent form at 10^21 and above, are not modelled.
- `EditRoundTrip.PayloadOfPrefill`: the pet form hands `onSubmit` the string form without coercion, and the parent that receives it is not part of this model. The round-trip lemmas relate the prefill map and the create payload map as maps. They assume the edit path coerces like the dashboard's create request; no shown code joins the two.
- `PetEdit.jsx`, `PetList.jsx` and the parent that receives `onSubmit`/`onCancel` are not part of this model. They only render pets and forward callbacks. Any update (PUT) path and any local add, replace or filter of the list are also left out, because the modelled code always refetches.
