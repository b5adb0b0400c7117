/** The values both pet forms work on: the string-valued form with its nested
    address, the per-field error messages, the pet records the server sends
    and receives, and the outcome of a network call. */
module PetTypes {

  datatype Option<+T> = None | Some(value: T)

  /** The `name` attribute of the nine inputs a pet form renders. */
  datatype FieldName = Nome | Tipo | Sexo | Idade | Peso | Raca | Rua | Numero | Cidade
  {
    /** The fields validated as digit strings, each with its own error slot. */
    predicate IsNumeric() {
      this == Idade || this == Peso || this == Numero
    }

    /** The fields stored inside the nested `endereco` object. */
    predicate IsAddress() {
      this == Rua || this == Numero || this == Cidade
    }
  }

  /** The address part of the form: every value is the text typed so far. */
  datatype Address = Address(rua: string, numero: string, cidade: string)
  {
    /** The value of the address input called `f`. */
    function Get(f: FieldName): string
      requires f.IsAddress()
    {
      match f
      case Rua => rua
      case Numero => numero
      case Cidade => cidade
    }

    /** `{ ...endereco, [f]: value }` for one of the three address inputs. */
    function With(f: FieldName, value: string): (r: Address)
      requires f.IsAddress()
      ensures r.Get(f) == value
      ensures forall g: FieldName :: g.IsAddress() && g != f ==> r.Get(g) == Get(g)
    {
      match f
      case Rua => this.(rua := value)
      case Numero => this.(numero := value)
      case Cidade => this.(cidade := value)
    }
  }

  /** The form record held in component state; every value is a string. */
  datatype Form = Form(
    nome: string, tipo: string, sexo: string,
    idade: string, peso: string, raca: string,
    endereco: Address)
  {
    /** The value the input called `f` displays. */
    function Get(f: FieldName): string {
      match f
      case Nome => nome
      case Tipo => tipo
      case Sexo => sexo
      case Idade => idade
      case Peso => peso
      case Raca => raca
      case Rua => endereco.rua
      case Numero => endereco.numero
      case Cidade => endereco.cidade
    }

    /** `{ ...form, [f]: value }` for one of the six top-level inputs. */
    function WithTop(f: FieldName, value: string): (r: Form)
      requires !f.IsAddress()
      ensures r.Get(f) == value && r.endereco == endereco
      ensures forall g: FieldName :: g != f ==> r.Get(g) == Get(g)
    {
      match f
      case Nome => this.(nome := value)
      case Tipo => this.(tipo := value)
      case Sexo => this.(sexo := value)
      case Idade => this.(idade := value)
      case Peso => this.(peso := value)
      case Raca => this.(raca := value)
    }
  }

  /** The error messages shown under the three numeric inputs; "" shows none. */
  datatype Errors = Errors(idade: string, peso: string, numero: string)
  {
    function Get(f: FieldName): string
      requires f.IsNumeric()
    {
      match f
      case Idade => idade
      case Peso => peso
      case Numero => numero
    }

    /** `{ ...prev, [f]: msg }`: one message replaced, the others kept. */
    function With(f: FieldName, msg: string): (r: Errors)
      requires f.IsNumeric()
      ensures r.Get(f) == msg
      ensures forall g: FieldName :: g.IsNumeric() && g != f ==> r.Get(g) == Get(g)
    {
      match f
      case Idade => this.(idade := msg)
      case Peso => this.(peso := msg)
      case Numero => this.(numero := msg)
    }
  }

  /** The address of a pet record, with a numeric house number. */
  datatype PetAddress = PetAddress(rua: string, numero: int, cidade: string)

  /** A pet as the server sends it (`id` present) or as the create request
      carries it (`id` absent); the numeric fields are numbers. */
  datatype PetRecord = PetRecord(
    id: Option<int>,
    nome: string, tipo: string, sexo: string,
    idade: int, peso: int, raca: string,
    endereco: PetAddress)

  /** The outcome of a request that returns data (GET). */
  datatype Response<+T> = Success(data: T) | Failure

  /** The outcome of a request whose answer is not used (POST, DELETE). */
  datatype Ack = Acknowledged | Rejected

  /** The form state before anything is typed, and after a reset. */
  const BlankForm: Form := Form("", "", "", "", "", "", Address("", "", ""))

  /** No error shown under any numeric input. */
  const BlankErrors: Errors := Errors("", "", "")

  /** The message shown while a numeric input holds a non-digit character. */
  const NotDigitsMessage: string := "Digite apenas números"

  /** The message shown when a numeric field fails the submit check. */
  function SubmitMessage(f: FieldName): string
    requires f.IsNumeric()
  {
    match f
    case Idade => "Idade deve ser um número"
    case Peso => "Peso deve ser um número"
    case Numero => "Número da casa deve ser um número"
  }
}
