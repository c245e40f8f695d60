/**
  The connection settings of the Evolution API gateway. Both components declare the same
  record (`ApiConfig` in WhatsAppWeb.tsx, `EvolutionApiConfig` in EvolutionApiConfig.tsx).
 */
module ApiConfigs {
  import Text

  /** The three string fields of the record, in the order the form creates them. */
  datatype ApiConfig = ApiConfig(baseUrl: string, apiKey: string, instanceName: string)
  {
    /** The value of one field, `config[field]`. */
    function Get(f: Field): string
    {
      match f
      case BaseUrl => baseUrl
      case ApiKey => apiKey
      case InstanceName => instanceName
    }

    /** The record update `{ ...prev, [field]: value }` of `handleInputChange`. */
    function With(f: Field, v: string): (r: ApiConfig)
      ensures r.Get(f) == v
      ensures forall g :: g != f ==> r.Get(g) == Get(g)
    {
      match f
      case BaseUrl => this.(baseUrl := v)
      case ApiKey => this.(apiKey := v)
      case InstanceName => this.(instanceName := v)
    }
  }

  /** `keyof EvolutionApiConfig`. */
  datatype Field = BaseUrl | ApiKey | InstanceName

  /**
    The guard of `handleSave`: a string is falsy in JavaScript exactly when it is empty, so
    the guard tests emptiness only; a field of blanks passes.
   */
  predicate IsComplete(c: ApiConfig)
    ensures IsComplete(c) <==> forall f :: c.Get(f) != ""
  {
    c.Get(BaseUrl) != "" && c.Get(ApiKey) != "" && c.Get(InstanceName) != ""
  }

  /** Fields holding only whitespace count as filled in: nothing trims them. */
  lemma BlankFieldsAreComplete(c: ApiConfig)
    requires forall f :: c.Get(f) != "" && Text.IsBlank(c.Get(f))
    ensures IsComplete(c)
  {
  }
}
