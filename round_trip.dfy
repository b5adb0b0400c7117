/** How the edit prefill (numbers rendered as text) and the create payload
    (text read back as numbers) relate as maps: inverse on canonical input. */
module EditRoundTrip {
  import opened Digits
  import opened PetTypes
  import opened Validation
  import opened PetFormComponent
  import opened DashboardComponent

  /** On a pet with non-negative numbers, the payload map undoes the prefill
      map: it gives back the record without its identifier. */
  lemma {:induction false} PayloadOfPrefill(pet: PetRecord)
    requires pet.idade >= 0 && pet.peso >= 0 && pet.endereco.numero >= 0
    ensures FirstInvalid(PrefillForm(pet)) == None
    ensures Payload(PrefillForm(pet)) == pet.(id := None)
  {
    ParseNatToString(pet.idade);
    ParseNatToString(pet.peso);
    ParseNatToString(pet.endereco.numero);
  }

  /** On a form whose numeric texts are canonical, the prefill map undoes the
      payload map. */
  lemma {:induction false} PrefillOfPayload(form: Form)
    requires Canonical(form.idade) && Canonical(form.peso) && Canonical(form.endereco.numero)
    ensures FirstInvalid(form) == None
    ensures PrefillForm(Payload(form)) == form
  {
    NatToStringParse(form.idade);
    NatToStringParse(form.peso);
    NatToStringParse(form.endereco.numero);
  }

  /** On any valid form, leading zeros included, the payload map is a fixed
      point of prefill followed by payload. */
  lemma {:induction false} PayloadAbsorbsPrefill(form: Form)
    requires FirstInvalid(form) == None
    ensures FirstInvalid(PrefillForm(Payload(form))) == None
    ensures Payload(PrefillForm(Payload(form))) == Payload(form)
  {
    PayloadOfPrefill(Payload(form));
  }
}
