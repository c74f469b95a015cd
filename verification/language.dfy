/** The two-valued interface-language switch. */
module Languages {
  import opened Types

  /** The language toggle's updater: EN becomes TR and anything else becomes EN. */
  function ToggleLanguage(lang: Language): (r: Language)
    ensures r != lang
    ensures lang == EN <==> r == TR
  {
    if lang == EN then TR else EN
  }

  /** Toggling twice restores the language. */
  lemma ToggleLanguageTwice(lang: Language)
    ensures ToggleLanguage(ToggleLanguage(lang)) == lang
  {
  }
}
