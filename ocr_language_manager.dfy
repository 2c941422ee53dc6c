/** The process-wide holder of the selected recognition language (`OcrLanguageManager.kt`). */
module LanguageManager {
  import opened Languages

  class OcrLanguageManager {
    var currentLanguage: OcrLanguage

    /** The holder starts at ENGLISH. */
    constructor ()
      ensures currentLanguage == English
    {
      currentLanguage := English;
    }

    method SetCurrentLanguage(language: OcrLanguage)
      modifies this
      ensures currentLanguage == language
    {
      currentLanguage := language;
    }

    /** Reading the holder changes nothing. */
    method GetCurrentLanguage() returns (language: OcrLanguage)
      ensures language == currentLanguage
    {
      language := currentLanguage;
    }
  }

  /** The value held after a series of `setCurrentLanguage` calls, starting from `initial`. */
  function LanguageAfter(initial: OcrLanguage, writes: seq<OcrLanguage>): OcrLanguage
    decreases |writes|
  {
    if writes == [] then initial else LanguageAfter(writes[0], writes[1..])
  }

  /** The last write wins, whatever came before it. */
  lemma {:induction false} LastWriteWins(initial: OcrLanguage, writes: seq<OcrLanguage>)
    requires writes != []
    ensures LanguageAfter(initial, writes) == writes[|writes| - 1]
    decreases |writes|
  {
    if |writes| > 1 {
      LastWriteWins(writes[0], writes[1..]);
    }
  }

  /** Setting the same language twice has the effect of setting it once. */
  lemma SetIsIdempotent(initial: OcrLanguage, writes: seq<OcrLanguage>, l: OcrLanguage)
    ensures LanguageAfter(initial, writes + [l, l]) == LanguageAfter(initial, writes + [l])
  {
    LastWriteWins(initial, writes + [l, l]);
    LastWriteWins(initial, writes + [l]);
  }

  /** Exercises the holder: a fresh one answers ENGLISH, then the last value written. */
  method HolderScenario(a: OcrLanguage, b: OcrLanguage) returns (first: OcrLanguage, last: OcrLanguage)
    ensures first == English && last == b
  {
    var m := new OcrLanguageManager();
    first := m.GetCurrentLanguage();
    m.SetCurrentLanguage(a);
    m.SetCurrentLanguage(b);
    m.SetCurrentLanguage(b);
    last := m.GetCurrentLanguage();
  }
}
