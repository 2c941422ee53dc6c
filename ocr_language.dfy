/** The table of supported recognition languages and lookup by code (`OcrLanguage.kt`). */
module Languages {
  import opened Wrappers

  datatype OcrLanguage = Auto | English | Russian | Chinese | Devanagari | Japanese | Korean

  /** The enum's `code` column. */
  function Code(l: OcrLanguage): string {
    match l
    case Auto => "auto"
    case English => "eng"
    case Russian => "rus"
    case Chinese => "chinese"
    case Devanagari => "devanagari"
    case Japanese => "japanese"
    case Korean => "korean"
  }

  /** The enum's `displayName` column. */
  function DisplayName(l: OcrLanguage): string {
    match l
    case Auto => "Auto Detect"
    case English => "English"
    case Russian => "Russian (Русский)"
    case Chinese => "Chinese"
    case Devanagari => "Devanagari"
    case Japanese => "Japanese"
    case Korean => "Korean"
  }

  /** The enum's `tesseractCode` column (`null` for the languages ML Kit handles). */
  function TesseractCode(l: OcrLanguage): Option<string> {
    match l
    case English => Some("eng")
    case Russian => Some("rus")
    case _ => None
  }

  /** `values()`: the constants in declaration order. */
  const Values: seq<OcrLanguage> := [Auto, English, Russian, Chinese, Devanagari, Japanese, Korean]

  /** `find { it.code == code }`: the first language in `langs` with that code. */
  function Find(langs: seq<OcrLanguage>, code: string): (r: Option<OcrLanguage>)
    ensures r.Some? ==> r.value in langs && Code(r.value) == code
    ensures r.None? ==> forall l :: l in langs ==> Code(l) != code
  {
    if langs == [] then None
    else if Code(langs[0]) == code then Some(langs[0])
    else Find(langs[1..], code)
  }

  /** `fromCode`: the language whose code is exactly `code`, else `AUTO`. */
  function FromCode(code: string): (r: OcrLanguage)
    ensures (exists l :: Code(l) == code) ==> Code(r) == code
    ensures (forall l :: Code(l) != code) ==> r == Auto
  {
    ValuesAreComplete();
    Find(Values, code).GetOr(Auto)
  }

  /** Every constant is listed in `values()`. */
  lemma ValuesAreComplete()
    ensures forall l :: l in Values
  {
    forall l: OcrLanguage ensures l in Values {
      var k := match l
        case Auto => 0 case English => 1 case Russian => 2 case Chinese => 3
        case Devanagari => 4 case Japanese => 5 case Korean => 6;
      assert Values[k] == l;
    }
  }

  /** The seven codes are pairwise distinct. */
  lemma CodesDistinct(a: OcrLanguage, b: OcrLanguage)
    ensures Code(a) == Code(b) ==> a == b
  {
  }

  /** Looking a language up by its own code gives it back. */
  lemma FromCodeRoundTrip(l: OcrLanguage)
    ensures FromCode(Code(l)) == l
  {
    CodesDistinct(FromCode(Code(l)), l);
  }

  /** Case matters: anything that is not exactly a code, such as `"ENG"`, gives `AUTO`. */
  lemma FromCodeIsExact(code: string)
    requires code !in {"auto", "eng", "rus", "chinese", "devanagari", "japanese", "korean"}
    ensures FromCode(code) == Auto
  {
  }

  /** ENGLISH (`"eng"`) and RUSSIAN (`"rus"`) are the only languages with a Tesseract code. */
  lemma TesseractLanguages(l: OcrLanguage)
    ensures TesseractCode(l).Some? <==> l == English || l == Russian
    ensures TesseractCode(l).Some? ==> TesseractCode(l).value == Code(l)
  {
  }
}
