/** The recognition result records shared by the engine and both servers (`OcrResult.kt`). */
module OcrResults {
  import opened Wrappers

  /** A rectangle in source-image pixels (post-resize). */
  datatype BoundingBox = BoundingBox(left: int, top: int, right: int, bottom: int)

  /** One recognised line; `None` means the recogniser reported no box. */
  datatype TextLine = TextLine(text: string, boundingBox: Option<BoundingBox>)

  /** One recognised block with its lines, in reading order. */
  datatype TextBlock = TextBlock(text: string, boundingBox: Option<BoundingBox>, lines: seq<TextLine>)

  /**
   * A recognition result. `confidence` is the Kotlin `Float`, modelled exactly as a real;
   * `processingTimeMs` is a wall-clock difference and is supplied by the caller.
   */
  datatype OcrResult = OcrResult(
    text: string,
    confidence: real,
    language: string,
    blocks: seq<TextBlock>,
    processingTimeMs: int)
}
