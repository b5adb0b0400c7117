/** The dashboard component: the pet list mirrored from the server, the
    inline create form and its errors. Every request is replaced by its
    outcome, passed in as a parameter; state changes only after a request
    the server has acknowledged. */
module DashboardComponent {
  import opened Digits
  import opened PetTypes
  import opened Validation

  /** The body of the create request: the form with its three numeric texts
      replaced by the numbers they denote (`Number(...)`). Each number,
      rendered again, is its text without superfluous leading zeros. */
  function Payload(form: Form): (r: PetRecord)
    requires FirstInvalid(form) == None
    ensures r.id == None
    ensures r.nome == form.nome && r.tipo == form.tipo && r.sexo == form.sexo && r.raca == form.raca
    ensures r.endereco.rua == form.endereco.rua && r.endereco.cidade == form.endereco.cidade
    ensures r.idade >= 0 && IntToString(r.idade) == StripLeadingZeros(form.idade)
    ensures r.peso >= 0 && IntToString(r.peso) == StripLeadingZeros(form.peso)
    ensures r.endereco.numero >= 0 &&
      IntToString(r.endereco.numero) == StripLeadingZeros(form.endereco.numero)
  {
    RenderParsed(form.idade);
    RenderParsed(form.peso);
    RenderParsed(form.endereco.numero);
    PetRecord(
      None,
      form.nome, form.tipo, form.sexo,
      ParseDigits(form.idade), ParseDigits(form.peso), form.raca,
      PetAddress(form.endereco.rua, ParseDigits(form.endereco.numero), form.endereco.cidade))
  }

  class Dashboard {
    var pets: seq<PetRecord>
    var petForm: Form
    var errors: Errors

    /** Mounting: blank form, no errors, and the list fetched once; a failed
        fetch leaves the initial empty list. */
    constructor (onMount: Response<seq<PetRecord>>)
      ensures pets == (if onMount.Success? then onMount.data else [])
      ensures petForm == BlankForm && errors == BlankErrors
    {
      pets := [];
      petForm := BlankForm;
      errors := BlankErrors;
      new;
      FetchData(onMount);
    }

    /** GET the list: the response replaces the list; a failure keeps it. */
    method FetchData(response: Response<seq<PetRecord>>)
      modifies this`pets
      ensures response.Success? ==> pets == response.data
      ensures response.Failure? ==> pets == old(pets)
    {
      if response.Success? {
        pets := response.data;
      }
    }

    /** Submit the create form. A field failing `^\d+$` gets its message and
        no request is made. Otherwise `request` is the POST body; only once
        the server acknowledges it is the list refetched (`refetch` is the
        outcome of that GET) and the form and errors blanked. */
    method HandleSubmit(post: Ack, refetch: Response<seq<PetRecord>>) returns (request: Option<PetRecord>)
      modifies this
      ensures FirstInvalid(old(petForm)).Some? ==>
        var f := FirstInvalid(old(petForm)).value;
        request == None && errors == old(errors).With(f, SubmitMessage(f)) &&
        petForm == old(petForm) && pets == old(pets)
      ensures FirstInvalid(old(petForm)) == None ==> request == Some(Payload(old(petForm)))
      ensures FirstInvalid(old(petForm)) == None && post == Rejected ==>
        petForm == old(petForm) && errors == old(errors) && pets == old(pets)
      ensures FirstInvalid(old(petForm)) == None && post == Acknowledged ==>
        petForm == BlankForm && errors == BlankErrors &&
        pets == (if refetch.Success? then refetch.data else old(pets))
    {
      if !NonEmptyDigits(petForm.idade) {
        errors := errors.With(Idade, SubmitMessage(Idade));
        return None;
      }
      if !NonEmptyDigits(petForm.peso) {
        errors := errors.With(Peso, SubmitMessage(Peso));
        return None;
      }
      if !NonEmptyDigits(petForm.endereco.numero) {
        errors := errors.With(Numero, SubmitMessage(Numero));
        return None;
      }
      request := Some(Payload(petForm));
      if post == Acknowledged {
        FetchData(refetch);
        petForm := BlankForm;
        errors := BlankErrors;
      }
    }

    /** DELETE one pet: the list is refetched only after the server
        acknowledges, so a failed delete leaves the pet listed. */
    method HandleDelete(delete: Ack, refetch: Response<seq<PetRecord>>)
      modifies this`pets
      ensures delete == Acknowledged && refetch.Success? ==> pets == refetch.data
      ensures delete == Rejected || refetch.Failure? ==> pets == old(pets)
    {
      if delete == Acknowledged {
        FetchData(refetch);
      }
    }

    /** One keystroke in the create form, with the same per-field rule as
        the pet form component. */
    method HandleChange(name: FieldName, value: string)
      modifies this`petForm, this`errors
      ensures petForm.Get(name) == value
      ensures forall g: FieldName :: g != name ==> petForm.Get(g) == old(petForm).Get(g)
      ensures !name.IsAddress() ==> petForm.endereco == old(petForm).endereco
      ensures name.IsNumeric() ==> errors.Get(name) == KeystrokeError(value)
      ensures name.IsNumeric() ==> (errors.Get(name) == "" <==> AllDigits(value))
      ensures forall g: FieldName :: g.IsNumeric() && g != name ==> errors.Get(g) == old(errors).Get(g)
      ensures !name.IsNumeric() ==> errors == old(errors)
    {
      if name.IsNumeric() {
        if !AllDigits(value) {
          errors := errors.With(name, NotDigitsMessage);
        } else {
          errors := errors.With(name, "");
        }
      }
      if name.IsAddress() {
        petForm := petForm.(endereco := petForm.endereco.With(name, value));
      } else {
        petForm := petForm.WithTop(name, value);
      }
    }
  }
}
