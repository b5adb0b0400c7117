/** The pet form component: its `form` and `errors` state, the prefill from
    the pet being edited, per-keystroke updates and the checked submit. */
module PetFormComponent {
  import opened Digits
  import opened PetTypes
  import opened Validation

  /** The form a pet record is loaded into for editing: text fields copied,
      numbers rendered with `toString()`. */
  function PrefillForm(pet: PetRecord): (r: Form)
    ensures FirstInvalid(r) == None <==>
      pet.idade >= 0 && pet.peso >= 0 && pet.endereco.numero >= 0
    ensures pet.idade < 0 <==> FirstInvalid(r) == Some(Idade)
  {
    Form(
      pet.nome, pet.tipo, pet.sexo,
      IntToString(pet.idade), IntToString(pet.peso), pet.raca,
      Address(pet.endereco.rua, IntToString(pet.endereco.numero), pet.endereco.cidade))
  }

  class PetForm {
    var form: Form
    var errors: Errors

    /** The state before the prefill effect first runs. */
    constructor ()
      ensures form == BlankForm && errors == BlankErrors
    {
      form := BlankForm;
      errors := BlankErrors;
    }

    method ResetForm()
      modifies this
      ensures form == BlankForm && errors == BlankErrors
    {
      form := BlankForm;
      errors := BlankErrors;
    }

    /** The effect run whenever the `pet` property changes: load the pet, or
        blank the form when there is none. Either way no error is shown. */
    method Prefill(pet: Option<PetRecord>)
      modifies this
      ensures errors == BlankErrors
      ensures pet.None? ==> form == BlankForm
      ensures pet.Some? ==> form == PrefillForm(pet.value)
    {
      if pet.Some? {
        form := PrefillForm(pet.value);
        errors := BlankErrors;
      } else {
        ResetForm();
      }
    }

    /** One keystroke in the input called `name`. The typed value is stored
        whether or not it passes; only that input's error can change. */
    method HandleChange(name: FieldName, value: string)
      modifies this
      ensures form.Get(name) == value
      ensures forall g: FieldName :: g != name ==> form.Get(g) == old(form).Get(g)
      ensures !name.IsAddress() ==> form.endereco == old(form).endereco
      ensures name.IsNumeric() ==> errors.Get(name) == KeystrokeError(value)
      ensures name.IsNumeric() ==> (errors.Get(name) == "" <==> AllDigits(value))
      ensures forall g: FieldName :: g.IsNumeric() && g != name ==> errors.Get(g) == old(errors).Get(g)
      ensures !name.IsNumeric() ==> errors == old(errors)
    {
      if name.IsNumeric() {
        if !AllDigits(value) {
          errors := errors.With(name, NotDigitsMessage);
        } else {
          errors := errors.With(name, "");
        }
      }
      if name.IsAddress() {
        form := form.(endereco := form.endereco.With(name, value));
      } else {
        form := form.WithTop(name, value);
      }
    }

    /** Submit: the first numeric field failing `^\d+$` gets its message and
        nothing is handed on; otherwise the form is handed to the parent
        (`onSubmit`) and the state is reset. */
    method HandleSubmit() returns (submitted: Option<Form>)
      modifies this
      ensures FirstInvalid(old(form)) == None ==>
        submitted == Some(old(form)) && form == BlankForm && errors == BlankErrors
      ensures FirstInvalid(old(form)).Some? ==>
        var f := FirstInvalid(old(form)).value;
        submitted == None && form == old(form) && errors == old(errors).With(f, SubmitMessage(f))
    {
      if !NonEmptyDigits(form.idade) {
        errors := errors.With(Idade, SubmitMessage(Idade));
        return None;
      }
      if !NonEmptyDigits(form.peso) {
        errors := errors.With(Peso, SubmitMessage(Peso));
        return None;
      }
      if !NonEmptyDigits(form.endereco.numero) {
        errors := errors.With(Numero, SubmitMessage(Numero));
        return None;
      }
      submitted := Some(form);
      ResetForm();
    }
  }
}
