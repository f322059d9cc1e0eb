/** The entry point of `src/lib.rs`: the data languages and the client
    object, whose language can be changed and is handed, as a lowercase
    code, to every accessor. */
module Lib {
  import opened Text
  import SetEndpoint = Sets
  import SerieEndpoint = Series
  import CardEndpoint = Cards

  /** The languages the API serves data in. */
  datatype Lang = EN | FR | DE | IT | PT | ES
  {
    /** `Display for Lang`: the variant name. */
    function ToString(): string {
      match this
      case EN => "EN"
      case FR => "FR"
      case DE => "DE"
      case IT => "IT"
      case PT => "PT"
      case ES => "ES"
    }

    /** `to_string().to_lowercase()`: the code used in request URLs, two
        lowercase letters. */
    function Code(): (code: string)
      ensures |code| == 2 && forall i :: 0 <= i < 2 ==> 'a' <= code[i] <= 'z'
    {
      ToLowerAscii(ToString())
    }
  }

  /** The language codes are en, fr, de, it, pt and es, and no two
      languages share one. */
  lemma LangCodes(a: Lang, b: Lang)
    ensures EN.Code() == "en" && FR.Code() == "fr" && DE.Code() == "de"
    ensures IT.Code() == "it" && PT.Code() == "pt" && ES.Code() == "es"
    ensures a.Code() == b.Code() ==> a == b
  {
    assert EN.Code() == "en";
    assert FR.Code() == "fr";
    assert DE.Code() == "de";
    assert IT.Code() == "it";
    assert PT.Code() == "pt";
    assert ES.Code() == "es";
  }

  /** The client: its HTTP connection (not modelled) and its language. */
  class Tcgdex {
    var lang: Lang

    /** `Tcgdex::new()` and `Tcgdex::default()`: English. */
    constructor ()
      ensures lang == EN
    {
      lang := EN;
    }

    /** `set_lang`: replaces the language and returns the client itself,
        for chaining. */
    method SetLang(newLang: Lang) returns (self: Tcgdex)
      modifies this
      ensures lang == newLang
      ensures self == this
    {
      lang := newLang;
      self := this;
    }

    /** `sets()`: an accessor holding the current language's code. */
    function Sets(): (api: SetEndpoint.SetApi)
      reads this
      ensures api.lang == lang.Code()
    {
      SetEndpoint.SetApi(lang.Code())
    }

    /** `series()`: an accessor holding the current language's code. */
    function Series(): (api: SerieEndpoint.SerieApi)
      reads this
      ensures api.lang == lang.Code()
    {
      SerieEndpoint.SerieApi(lang.Code())
    }

    /** `cards()`: an accessor holding the current language's code. */
    function Cards(): (api: CardEndpoint.CardApi)
      reads this
      ensures api.lang == lang.Code()
    {
      CardEndpoint.CardApi(lang.Code())
    }
  }
}
