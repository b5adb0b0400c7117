/** The client-side checks on the three numeric fields, written the same way
    in both copies of the form logic: the per-keystroke check `^\d*$` and the
    ordered submit check `^\d+$`. */
module Validation {
  import opened Digits
  import opened PetTypes

  /** The message `handleChange` stores for a numeric input holding `value`. */
  function KeystrokeError(value: string): (msg: string)
    ensures msg == "" <==> AllDigits(value)
    ensures msg == "" || msg == NotDigitsMessage
  {
    if !AllDigits(value) then NotDigitsMessage else ""
  }

  /** The first numeric field, in the order idade, peso, endereco.numero,
      whose text fails `^\d+$`; None when all three pass. */
  function FirstInvalid(form: Form): (r: Option<FieldName>)
    ensures r == None <==>
      NonEmptyDigits(form.idade) && NonEmptyDigits(form.peso) && NonEmptyDigits(form.endereco.numero)
    ensures r == Some(Idade) <==> !NonEmptyDigits(form.idade)
    ensures r == Some(Peso) <==> NonEmptyDigits(form.idade) && !NonEmptyDigits(form.peso)
    ensures r == Some(Numero) <==>
      NonEmptyDigits(form.idade) && NonEmptyDigits(form.peso) && !NonEmptyDigits(form.endereco.numero)
    ensures r.Some? ==> r.value.IsNumeric() && !NonEmptyDigits(form.Get(r.value))
  {
    if !NonEmptyDigits(form.idade) then Some(Idade)
    else if !NonEmptyDigits(form.peso) then Some(Peso)
    else if !NonEmptyDigits(form.endereco.numero) then Some(Numero)
    else None
  }

  /** The two checks differ on exactly one input: the empty string shows no
      error while typing and is still refused on submit. */
  lemma KeystrokeWeakerThanSubmit(value: string)
    ensures NonEmptyDigits(value) ==> KeystrokeError(value) == ""
    ensures (KeystrokeError(value) == "" && !NonEmptyDigits(value)) <==> value == ""
  {
  }
}
