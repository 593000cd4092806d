/** The site-wide language selector: English or French, read back from
    browser storage once the provider has mounted, written back (with the
    document's `lang` attribute) after every change from then on. Browser
    storage and the document element are fields of the state. */
module LanguageProvider {
  import opened Wrappers

  datatype Language = En | Fr

  const EnCode := "en"
  const FrCode := "fr"
  const OutsideProviderError := "useLanguage must be used within a LanguageProvider"

  /** The code stored and put in the `lang` attribute. */
  function Code(language: Language): (code: string)
    ensures code == EnCode || code == FrCode
  {
    match language
    case En => EnCode
    case Fr => FrCode
  }

  /** The check on the stored value: only the exact codes "en" and "fr" are
      adopted; a missing value and anything else are ignored. */
  function ParseStored(saved: Option<string>): (r: Option<Language>)
    ensures r.Some? <==> saved == Some(EnCode) || saved == Some(FrCode)
    ensures r.Some? ==> saved == Some(Code(r.value))
  {
    match saved
    case None => None
    case Some(s) =>
      if s == EnCode then Some(En)
      else if s == FrCode then Some(Fr)
      else None
  }

  /** Reading back what was written gives the language that was written. */
  lemma ParseStoredCode(language: Language)
    ensures ParseStored(Some(Code(language))) == Some(language)
  {
    assert EnCode != FrCode by {
      assert EnCode[0] != FrCode[0];
    }
  }

  /** The language after mounting, for a given stored value. */
  function MountedLanguage(saved: Option<string>): (language: Language)
    ensures ParseStored(saved).None? ==> language == En
    ensures ParseStored(saved).Some? ==> saved == Some(Code(language))
  {
    ParseStored(saved).GetOr(En)
  }

  /** `toggleLanguage`'s update: en becomes fr and fr becomes en. */
  function Toggle(language: Language): (r: Language)
    ensures r != language
  {
    if language == En then Fr else En
  }

  /** Toggling twice changes nothing. */
  lemma ToggleInvolutive(language: Language)
    ensures Toggle(Toggle(language)) == language
  {
  }

  /** `useLanguage`: the context when a provider is rendering, an error
      otherwise. */
  function UseLanguage(context: Option<Language>): (r: Result<Language, string>)
    ensures r.Success? <==> context.Some?
    ensures r.Success? ==> r.value == context.value
    ensures r.Failure? ==> r.error == OutsideProviderError
  {
    match context
    case Some(language) => Success(language)
    case None => Failure(OutsideProviderError)
  }

  class LanguageState {
    var language: Language
    var mounted: bool
    /** The browser storage entry 'language'. */
    var stored: Option<string>
    /** The document element's `lang` attribute. */
    var documentLang: Option<string>

    /** Once mounted, storage and the document agree with the language. */
    predicate Persisted()
      reads this
    {
      mounted ==> stored == Some(Code(language)) && documentLang == Some(Code(language))
    }

    /** The first render: English, not mounted; the browser keeps whatever it
        held before. */
    constructor(saved: Option<string>, lang: Option<string>)
      ensures language == En && !mounted
      ensures stored == saved && documentLang == lang
      ensures Persisted()
    {
      language, mounted := En, false;
      stored, documentLang := saved, lang;
    }

    /** The persistence effect: writes only once mounted. */
    method Persist()
      modifies this`stored, this`documentLang
      ensures old(mounted) ==> stored == Some(Code(language)) && documentLang == Some(Code(language))
      ensures !old(mounted) ==> stored == old(stored) && documentLang == old(documentLang)
      ensures Persisted()
    {
      if mounted {
        stored := Some(Code(language));
        documentLang := Some(Code(language));
      }
    }

    /** The mount effect and the persistence run it triggers: adopts a valid
        stored code, then writes the resulting language back. */
    method Mount()
      modifies this
      ensures mounted
      ensures ParseStored(old(stored)).Some? ==> language == ParseStored(old(stored)).value
      ensures ParseStored(old(stored)).None? ==> language == old(language)
      ensures old(language) == En ==> language == MountedLanguage(old(stored))
      ensures stored == Some(Code(language)) && documentLang == Some(Code(language))
      ensures Persisted()
    {
      mounted := true;
      var saved := ParseStored(stored);
      if saved.Some? {
        language := saved.value;
      }
      Persist();
    }

    /** `toggleLanguage` and the persistence run it triggers. */
    method ToggleLanguage()
      modifies this`language, this`stored, this`documentLang
      ensures language == Toggle(old(language))
      ensures Persisted()
      ensures !mounted ==> stored == old(stored) && documentLang == old(documentLang)
    {
      language := Toggle(language);
      Persist();
    }

    /** What the provider renders: nothing before mounting, otherwise the
        context carrying the language. */
    function Context(): (context: Option<Language>)
      reads this
      ensures context.Some? <==> mounted
      ensures context.Some? ==> context.value == language
    {
      if mounted then Some(language) else None
    }
  }
}
