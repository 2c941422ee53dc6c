/**
 * The recognition engine (`OcrEngine.kt`): the choice between the Tesseract path and the ML Kit
 * recognisers, the once-only Tesseract initialisation, and the conversion of ML Kit's result
 * tree into `OcrResult`. The recognisers, the language identifier and Tesseract are library
 * calls and enter the model as the functions of a `Backend`.
 */
module Engine {
  import opened Wrappers
  import opened Text
  import opened Languages
  import opened OcrResults
  import opened ImageUtils

  /** ML Kit's result tree: the text, its blocks, their lines and the lines' elements. */
  datatype Rect = Rect(left: int, top: int, right: int, bottom: int)
  datatype VisionElement = VisionElement(text: string)
  datatype VisionLine = VisionLine(text: string, boundingBox: Option<Rect>, elements: seq<VisionElement>)
  datatype VisionBlock = VisionBlock(text: string, boundingBox: Option<Rect>, lines: seq<VisionLine>)
  datatype VisionText = VisionText(text: string, textBlocks: seq<VisionBlock>)

  /** The five ML Kit recogniser clients the engine holds. */
  datatype Recognizer = LatinRecognizer | ChineseRecognizer | DevanagariRecognizer | JapaneseRecognizer | KoreanRecognizer

  /** What Tesseract reports for one image: `getUTF8Text()` (nullable) and `meanConfidence()`. */
  datatype TessOutput = TessOutput(utf8Text: Option<string>, meanConfidence: int)

  /**
   * The libraries. `process` runs a recogniser, `identifyLanguage` is ML Kit language
   * identification, `initTesseract` extracts the trained data for a code and initialises a
   * Tesseract handle, and `runTesseract` recognises an image with the handle initialised for the
   * given code. A `Failure` is the exception the call throws, with its message.
   */
  datatype Backend = Backend(
    process: (Recognizer, Bitmap) -> Result<VisionText>,
    identifyLanguage: string -> Result<string>,
    initTesseract: string -> Result<()>,
    runTesseract: (string, Bitmap) -> Result<TessOutput>)

  const DefaultConfidence: real := 0.0
  const UnknownLanguage: string := "unknown"
  const UndeterminedLanguage: string := "und"
  const RecognizeFailedPrefix: string := "Failed to recognize text: "
  const TesseractFailedPrefix: string := "Tesseract OCR failed: "
  const TesseractInitFailedPrefix: string := "Tesseract initialization failed: "

  /** `getRecognizerForLanguage`: Latin for AUTO, ENGLISH and RUSSIAN, each other script its own client. */
  function RecognizerFor(language: OcrLanguage): (r: Recognizer)
    ensures r == LatinRecognizer <==> language == Auto || language == English || language == Russian
    ensures language == Chinese <==> r == ChineseRecognizer
    ensures language == Devanagari <==> r == DevanagariRecognizer
    ensures language == Japanese <==> r == JapaneseRecognizer
    ensures language == Korean <==> r == KoreanRecognizer
  {
    match language
    case Auto => LatinRecognizer
    case English => LatinRecognizer
    case Russian => LatinRecognizer
    case Chinese => ChineseRecognizer
    case Devanagari => DevanagariRecognizer
    case Japanese => JapaneseRecognizer
    case Korean => KoreanRecognizer
  }

  /** `detectLanguage`: the identified code, with `"und"` and a failed identification both reported as `"unknown"`. */
  function DetectLanguage(text: string, backend: Backend): (r: string)
    ensures r != UndeterminedLanguage
    ensures backend.identifyLanguage(text).Failure? ==> r == UnknownLanguage
    ensures backend.identifyLanguage(text).Success? && backend.identifyLanguage(text).value != UndeterminedLanguage ==>
              r == backend.identifyLanguage(text).value
    ensures backend.identifyLanguage(text) == Success(UndeterminedLanguage) ==> r == UnknownLanguage
  {
    match backend.identifyLanguage(text)
    case Failure(_) => UnknownLanguage
    case Success(code) => if code == UndeterminedLanguage then UnknownLanguage else code
  }

  /** `createEmptyResult`: no text, confidence 0, language `"unknown"`, no blocks. */
  function EmptyResult(processingTime: int): (r: OcrResult)
    ensures r.text == [] && r.confidence == 0.0 && r.language == UnknownLanguage
    ensures r.blocks == [] && r.processingTimeMs == processingTime
  {
    OcrResult([], DefaultConfidence, UnknownLanguage, [], processingTime)
  }

  /** The number of elements in a list of lines. */
  function LineElementCount(lines: seq<VisionLine>): nat {
    if lines == [] then 0 else LineElementCount(lines[..|lines| - 1]) + |lines[|lines| - 1].elements|
  }

  /** The number of elements in all lines of a list of blocks. */
  function ElementCount(blocks: seq<VisionBlock>): nat {
    if blocks == [] then 0 else ElementCount(blocks[..|blocks| - 1]) + LineElementCount(blocks[|blocks| - 1].lines)
  }

  /** Some line of some block holds at least one element. */
  ghost predicate HasElement(vt: VisionText) {
    exists b, l :: 0 <= b < |vt.textBlocks| && 0 <= l < |vt.textBlocks[b].lines| &&
      |vt.textBlocks[b].lines[l].elements| > 0
  }

  lemma {:induction false} LineElementCountPositive(lines: seq<VisionLine>)
    ensures LineElementCount(lines) > 0 <==> exists l :: 0 <= l < |lines| && |lines[l].elements| > 0
    decreases |lines|
  {
    if lines != [] {
      var init := lines[..|lines| - 1];
      LineElementCountPositive(init);
      if exists l :: 0 <= l < |lines| && |lines[l].elements| > 0 {
        var l :| 0 <= l < |lines| && |lines[l].elements| > 0;
        if l < |lines| - 1 {
          assert init[l] == lines[l];
        }
      }
      if exists l :: 0 <= l < |init| && |init[l].elements| > 0 {
        var l :| 0 <= l < |init| && |init[l].elements| > 0;
        assert lines[l] == init[l];
      }
    }
  }

  lemma {:induction false} ElementCountPositive(blocks: seq<VisionBlock>)
    ensures ElementCount(blocks) > 0 <==>
              exists b, l :: 0 <= b < |blocks| && 0 <= l < |blocks[b].lines| && |blocks[b].lines[l].elements| > 0
    decreases |blocks|
  {
    if blocks != [] {
      var init := blocks[..|blocks| - 1];
      var last := blocks[|blocks| - 1];
      ElementCountPositive(init);
      LineElementCountPositive(last.lines);
      if exists b, l :: 0 <= b < |blocks| && 0 <= l < |blocks[b].lines| && |blocks[b].lines[l].elements| > 0 {
        var b, l :| 0 <= b < |blocks| && 0 <= l < |blocks[b].lines| && |blocks[b].lines[l].elements| > 0;
        if b < |blocks| - 1 {
          assert init[b] == blocks[b];
        }
      }
      if exists b, l :: 0 <= b < |init| && 0 <= l < |init[b].lines| && |init[b].lines[l].elements| > 0 {
        var b, l :| 0 <= b < |init| && 0 <= l < |init[b].lines| && |init[b].lines[l].elements| > 0;
        assert blocks[b] == init[b];
      }
    }
  }

  /** The value `calculateAverageConfidence` computes: every element counts 1, so the mean is 1 or, with no element, 0. */
  function AverageConfidence(vt: VisionText): (r: real)
    ensures r == 1.0 <==> HasElement(vt)
    ensures r == 0.0 <==> !HasElement(vt)
  {
    ElementCountPositive(vt.textBlocks);
    if ElementCount(vt.textBlocks) > 0 then 1.0 else DefaultConfidence
  }

  function ConvertBox(box: Option<Rect>): (r: Option<BoundingBox>)
    ensures r.None? <==> box.None?
    ensures box.Some? ==> r.value.left == box.value.left && r.value.top == box.value.top
    ensures box.Some? ==> r.value.right == box.value.right && r.value.bottom == box.value.bottom
  {
    match box
    case None => None
    case Some(b) => Some(BoundingBox(b.left, b.top, b.right, b.bottom))
  }

  function ConvertLine(line: VisionLine): TextLine {
    TextLine(line.text, ConvertBox(line.boundingBox))
  }

  function ConvertBlock(block: VisionBlock): TextBlock {
    TextBlock(block.text, ConvertBox(block.boundingBox),
              seq(|block.lines|, j requires 0 <= j < |block.lines| => ConvertLine(block.lines[j])))
  }

  /** `convertToBlocks`: blocks and their lines in the same order, with the same texts and the same boxes. */
  function ConvertToBlocks(vt: VisionText): (r: seq<TextBlock>)
    ensures |r| == |vt.textBlocks|
    ensures forall i :: 0 <= i < |r| ==>
              && r[i].text == vt.textBlocks[i].text
              && r[i].boundingBox == ConvertBox(vt.textBlocks[i].boundingBox)
              && |r[i].lines| == |vt.textBlocks[i].lines|
    ensures forall i, j :: 0 <= i < |r| && 0 <= j < |r[i].lines| ==>
              && r[i].lines[j].text == vt.textBlocks[i].lines[j].text
              && r[i].lines[j].boundingBox == ConvertBox(vt.textBlocks[i].lines[j].boundingBox)
  {
    seq(|vt.textBlocks|, i requires 0 <= i < |vt.textBlocks| => ConvertBlock(vt.textBlocks[i]))
  }

  /** The ML Kit path, used for languages without a Tesseract code. */
  function RecognizeWithMlKit(bitmap: Bitmap, language: OcrLanguage, backend: Backend, elapsed: int): (r: Result<OcrResult>)
    ensures var out := backend.process(RecognizerFor(language), bitmap);
            && (r.Failure? <==> out.Failure?)
            && (r.Failure? ==> StartsWith(r.error, RecognizeFailedPrefix) && r.error[|RecognizeFailedPrefix|..] == out.error)
    ensures r.Success? ==> var vt := backend.process(RecognizerFor(language), bitmap).value;
            && r.value.text == vt.text && r.value.processingTimeMs == elapsed
            && r.value.language != UndeterminedLanguage
            && (r.value.confidence == 1.0 <==> vt.text != [] && HasElement(vt))
            && (vt.text == [] ==> r.value.language == UnknownLanguage && r.value.blocks == [])
            && (vt.text != [] ==> |r.value.blocks| == |vt.textBlocks|)
  {
    match backend.process(RecognizerFor(language), bitmap)
    case Failure(m) => Failure(RecognizeFailedPrefix + m)
    case Success(vt) =>
      if vt.text == [] then Success(EmptyResult(elapsed))
      else Success(OcrResult(vt.text, AverageConfidence(vt), DetectLanguage(vt.text, backend), ConvertToBlocks(vt), elapsed))
  }

  /** A percentage as a fraction: Tesseract's mean confidence divided by 100. */
  function Hundredths(n: int): (r: real)
  {
    n as real / 100.0
  }

  /** The result Tesseract gives with the handle for `handleCode`: trimmed text, confidence / 100, the requested code. */
  function TesseractRun(handleCode: string, bitmap: Bitmap, language: OcrLanguage, backend: Backend, elapsed: int): (r: Result<OcrResult>)
    ensures var out := backend.runTesseract(handleCode, bitmap);
            && (r.Failure? <==> out.Failure?)
            && (r.Failure? ==> StartsWith(r.error, RecognizeFailedPrefix + TesseractFailedPrefix)
                               && r.error[|RecognizeFailedPrefix + TesseractFailedPrefix|..] == out.error)
    ensures r.Success? ==> var out := backend.runTesseract(handleCode, bitmap).value;
            && Bare(r.value.text) && Padded(out.utf8Text.GetOr([]), r.value.text) && (out.utf8Text.None? ==> r.value.text == [])
            && r.value.confidence * 100.0 == out.meanConfidence as real
            && r.value.language == Code(language) && r.value.blocks == [] && r.value.processingTimeMs == elapsed
  {
    match backend.runTesseract(handleCode, bitmap)
    case Failure(m) => Failure(RecognizeFailedPrefix + TesseractFailedPrefix + m)
    case Success(out) =>
      TrimIsPadded(out.utf8Text.GetOr([]));
      Success(OcrResult(Trim(out.utf8Text.GetOr([])), Hundredths(out.meanConfidence), Code(language), [], elapsed))
  }

  /**
   * `recognizeText` as a function of the Tesseract handle before the call (`None` while
   * uninitialised, else the code it was initialised for): the handle after the call and the result,
   * a `Failure` being the `OcrException` thrown.
   */
  function RecognizeSpec(handle: Option<string>, bitmap: Bitmap, language: OcrLanguage, backend: Backend, elapsed: int)
    : (r: (Option<string>, Result<OcrResult>))
  {
    match TesseractCode(language)
    case None => (handle, RecognizeWithMlKit(bitmap, language, backend, elapsed))
    case Some(code) =>
      match handle
      case Some(handleCode) => (handle, TesseractRun(handleCode, bitmap, language, backend, elapsed))
      case None =>
        match backend.initTesseract(code)
        case Failure(m) => (None, Failure(RecognizeFailedPrefix + TesseractFailedPrefix + (TesseractInitFailedPrefix + m)))
        case Success(_) => (Some(code), TesseractRun(code, bitmap, language, backend, elapsed))
  }

  /** Every failure of `recognizeText` carries the `"Failed to recognize text: "` prefix. */
  lemma RecognizeFailuresArePrefixed(handle: Option<string>, bitmap: Bitmap, language: OcrLanguage, backend: Backend, elapsed: int)
    ensures var r := RecognizeSpec(handle, bitmap, language, backend, elapsed).1;
            r.Failure? ==> StartsWith(r.error, RecognizeFailedPrefix)
  {
    var r := RecognizeSpec(handle, bitmap, language, backend, elapsed).1;
    if r.Failure? {
      assert r.error[..|RecognizeFailedPrefix|] == RecognizeFailedPrefix;
    }
  }

  /** ENGLISH and RUSSIAN never reach ML Kit: two backends that agree on Tesseract give the same outcome. */
  lemma TesseractPathIgnoresMlKit(handle: Option<string>, bitmap: Bitmap, language: OcrLanguage, b1: Backend, b2: Backend, elapsed: int)
    requires language == English || language == Russian
    requires b1.initTesseract == b2.initTesseract && b1.runTesseract == b2.runTesseract
    ensures RecognizeSpec(handle, bitmap, language, b1, elapsed) == RecognizeSpec(handle, bitmap, language, b2, elapsed)
  {
  }

  /** The ML Kit languages never touch the Tesseract handle, and those that do never clear it. */
  lemma HandleIsSticky(handle: Option<string>, bitmap: Bitmap, language: OcrLanguage, backend: Backend, elapsed: int)
    ensures TesseractCode(language).None? ==> RecognizeSpec(handle, bitmap, language, backend, elapsed).0 == handle
    ensures handle.Some? ==> RecognizeSpec(handle, bitmap, language, backend, elapsed).0 == handle
  {
  }

  /**
   * Once initialised, the handle is reused whatever language is asked for: the recognition runs
   * with the model of the first Tesseract language, while the result names the requested one.
   */
  lemma InitialisedHandleIsReused(handleCode: string, bitmap: Bitmap, language: OcrLanguage, backend: Backend, elapsed: int, out: TessOutput)
    requires TesseractCode(language).Some?
    requires backend.runTesseract(handleCode, bitmap) == Success(out)
    ensures RecognizeSpec(Some(handleCode), bitmap, language, backend, elapsed) ==
              (Some(handleCode), Success(OcrResult(Trim(out.utf8Text.GetOr([])), Hundredths(out.meanConfidence),
                                                   Code(language), [], elapsed)))
  {
    var expected := OcrResult(Trim(out.utf8Text.GetOr([])), Hundredths(out.meanConfidence), Code(language), [], elapsed);
    assert TesseractRun(handleCode, bitmap, language, backend, elapsed) == Success(expected);
    assert RecognizeSpec(Some(handleCode), bitmap, language, backend, elapsed) ==
             (Some(handleCode), TesseractRun(handleCode, bitmap, language, backend, elapsed));
  }

  /** The first Tesseract call initialises for the requested language; a failed initialisation leaves it uninitialised. */
  lemma FirstTesseractCallInitialises(bitmap: Bitmap, language: OcrLanguage, backend: Backend, elapsed: int)
    requires TesseractCode(language).Some?
    ensures var code := TesseractCode(language).value;
            && (backend.initTesseract(code).Success? ==> RecognizeSpec(None, bitmap, language, backend, elapsed).0 == Some(code))
            && (backend.initTesseract(code).Failure? ==> RecognizeSpec(None, bitmap, language, backend, elapsed).0 == None)
  {
  }

  /** An empty ML Kit text gives the empty result, whatever language identification would say. */
  lemma EmptyTextGivesEmptyResult(handle: Option<string>, bitmap: Bitmap, language: OcrLanguage, backend: Backend, elapsed: int)
    requires TesseractCode(language).None?
    requires backend.process(RecognizerFor(language), bitmap).Success?
    requires backend.process(RecognizerFor(language), bitmap).value.text == []
    ensures RecognizeSpec(handle, bitmap, language, backend, elapsed) == (handle, Success(EmptyResult(elapsed)))
  {
  }

  /** The mean of `count` scores adding up to `total`. */
  function Mean(total: real, count: nat): real
    requires count > 0
  {
    total / count as real
  }

  lemma MeanOfOnes(count: nat)
    requires count > 0
    ensures Mean(count as real, count) == 1.0
  {
  }

  /** The engine's mutable part: the Tesseract handle (by the code it was initialised for) and its flag. */
  class OcrEngine {
    var tesseract: Option<string>
    var isTesseractInitialized: bool

    /** The flag is set exactly while a handle is held. */
    predicate Valid()
      reads this
    {
      isTesseractInitialized <==> tesseract.Some?
    }

    constructor ()
      ensures Valid() && tesseract == None
    {
      tesseract := None;
      isTesseractInitialized := false;
    }

    /** `initTesseract`: on success the handle and the flag are set; on failure nothing changes. */
    method InitTesseract(code: string, backend: Backend) returns (failure: Option<string>)
      requires Valid() && !isTesseractInitialized
      modifies this
      ensures Valid()
      ensures backend.initTesseract(code).Success? ==> failure == None && tesseract == Some(code)
      ensures backend.initTesseract(code).Failure? ==>
                failure == Some(TesseractInitFailedPrefix + backend.initTesseract(code).error) && tesseract == None
    {
      var outcome := backend.initTesseract(code);
      if outcome.Failure? {
        return Some(TesseractInitFailedPrefix + outcome.error);
      }
      tesseract := Some(code);
      isTesseractInitialized := true;
      failure := None;
    }

    /** `calculateAverageConfidence`: the triple loop adding 1 per element, then the mean. */
    method CalculateAverageConfidence(vt: VisionText) returns (c: real)
      ensures c == AverageConfidence(vt)
    {
      var blocks := vt.textBlocks;
      if |blocks| == 0 {
        return DefaultConfidence;
      }
      var total: real := 0.0;
      var count: nat := 0;
      var i := 0;
      while i < |blocks|
        invariant 0 <= i <= |blocks|
        invariant count == ElementCount(blocks[..i]) && total == count as real
      {
        var lines := blocks[i].lines;
        var j := 0;
        while j < |lines|
          invariant 0 <= j <= |lines|
          invariant count == ElementCount(blocks[..i]) + LineElementCount(lines[..j]) && total == count as real
        {
          var elements := lines[j].elements;
          var k := 0;
          while k < |elements|
            invariant 0 <= k <= |elements|
            invariant count == ElementCount(blocks[..i]) + LineElementCount(lines[..j]) + k
            invariant total == count as real
          {
            total := total + 1.0;
            count := count + 1;
            k := k + 1;
          }
          assert lines[..j + 1][..j] == lines[..j];
          assert LineElementCount(lines[..j + 1]) == LineElementCount(lines[..j]) + |elements|;
          j := j + 1;
        }
        assert lines[..j] == lines;
        assert blocks[..i + 1][..i] == blocks[..i];
        assert ElementCount(blocks[..i + 1]) == ElementCount(blocks[..i]) + LineElementCount(lines);
        i := i + 1;
      }
      assert blocks[..i] == blocks;
      assert count == ElementCount(vt.textBlocks);
      if count > 0 {
        c := Mean(total, count);
        MeanOfOnes(count);
      } else {
        c := DefaultConfidence;
      }
    }

    /** `recognizeText`: the new handle and the result are those of `RecognizeSpec` on the old handle. */
    method RecognizeText(bitmap: Bitmap, language: OcrLanguage, backend: Backend, elapsed: int) returns (r: Result<OcrResult>)
      requires Valid()
      modifies this
      ensures Valid()
      ensures (tesseract, r) == RecognizeSpec(old(tesseract), bitmap, language, backend, elapsed)
    {
      if TesseractCode(language).Some? {
        if !isTesseractInitialized {
          var failure := InitTesseract(TesseractCode(language).value, backend);
          if failure.Some? {
            return Failure(RecognizeFailedPrefix + TesseractFailedPrefix + failure.value);
          }
        }
        var run := backend.runTesseract(tesseract.value, bitmap);
        if run.Failure? {
          return Failure(RecognizeFailedPrefix + TesseractFailedPrefix + run.error);
        }
        var recognized := Trim(run.value.utf8Text.GetOr([]));
        var confidence := Hundredths(run.value.meanConfidence);
        return Success(OcrResult(recognized, confidence, Code(language), [], elapsed));
      }
      var processed := backend.process(RecognizerFor(language), bitmap);
      if processed.Failure? {
        return Failure(RecognizeFailedPrefix + processed.error);
      }
      var vt := processed.value;
      if vt.text == [] {
        return Success(EmptyResult(elapsed));
      }
      var detected := DetectLanguage(vt.text, backend);
      var confidence := CalculateAverageConfidence(vt);
      var blocks := ConvertToBlocks(vt);
      r := Success(OcrResult(vt.text, confidence, detected, blocks, elapsed));
    }

    /**
     * `close`: when every client closes, the handle and the flag are cleared, so the next Tesseract
     * call initialises again; when a close throws, the exception is swallowed before the fields are reset.
     */
    method Close(closesCleanly: bool)
      requires Valid()
      modifies this
      ensures Valid()
      ensures closesCleanly ==> tesseract == None && !isTesseractInitialized
      ensures !closesCleanly ==> tesseract == old(tesseract) && isTesseractInitialized == old(isTesseractInitialized)
    {
      if closesCleanly {
        tesseract := None;
        isTesseractInitialized := false;
      }
    }
  }

  /** After a clean close, a Tesseract request initialises for its own language, not the one used before. */
  method CloseThenRecognize(engine: OcrEngine, bitmap: Bitmap, language: OcrLanguage, backend: Backend, elapsed: int)
    returns (r: Result<OcrResult>)
    requires engine.Valid() && TesseractCode(language).Some?
    requires backend.initTesseract(TesseractCode(language).value).Success?
    modifies engine
    ensures engine.tesseract == TesseractCode(language)
  {
    engine.Close(true);
    r := engine.RecognizeText(bitmap, language, backend, elapsed);
  }
}
