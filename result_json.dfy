/**
 * The recognition result as both servers write it out: the scalar fields of `OcrResult` and a
 * `blocks` array built entry by entry. Each array entry holds the block's `text` and, only when
 * the block has one, its `boundingBox`; lines are not emitted.
 */
module ResultJson {
  import opened Wrappers
  import opened OcrResults
  import opened Engine

  /** One entry of the `blocks` array; `boundingBox` is `None` when the key is absent. */
  datatype BlockJson = BlockJson(text: string, boundingBox: Option<BoundingBox>)

  /** The recognition fields of a result object: `text`, `confidence`, `language`, `processingTimeMs`, `blocks`. */
  datatype RecognitionJson = RecognitionJson(
    text: string,
    confidence: real,
    language: string,
    processingTimeMs: int,
    blocks: seq<BlockJson>)

  /** The entry written for one block. */
  function BlockToJson(block: TextBlock): BlockJson {
    BlockJson(block.text, block.boundingBox)
  }

  /** The `blocks` array for a list of blocks, in order. */
  function BlocksJson(blocks: seq<TextBlock>): (r: seq<BlockJson>)
    ensures |r| == |blocks|
    ensures forall i :: 0 <= i < |r| ==> r[i].text == blocks[i].text && r[i].boundingBox == blocks[i].boundingBox
  {
    if blocks == [] then [] else BlocksJson(blocks[..|blocks| - 1]) + [BlockToJson(blocks[|blocks| - 1])]
  }

  /** The result object's recognition fields for a result. */
  function RecognitionToJson(result: OcrResult): (r: RecognitionJson)
    ensures r.text == result.text && r.confidence == result.confidence && r.language == result.language
    ensures r.processingTimeMs == result.processingTimeMs && r.blocks == BlocksJson(result.blocks)
  {
    RecognitionJson(result.text, result.confidence, result.language, result.processingTimeMs, BlocksJson(result.blocks))
  }

  /** The `for (block in ocrResult.blocks)` loop that fills the `JSONArray`. */
  method BuildBlocksArray(blocks: seq<TextBlock>) returns (entries: seq<BlockJson>)
    ensures entries == BlocksJson(blocks)
  {
    entries := [];
    var i := 0;
    while i < |blocks|
      invariant 0 <= i <= |blocks|
      invariant entries == BlocksJson(blocks[..i])
    {
      assert blocks[..i + 1][..i] == blocks[..i];
      entries := entries + [BlockToJson(blocks[i])];
      i := i + 1;
    }
    assert blocks[..i] == blocks;
  }

  /** The result object built field by field. */
  method BuildResultJson(result: OcrResult) returns (json: RecognitionJson)
    ensures json == RecognitionToJson(result)
  {
    var blocks := BuildBlocksArray(result.blocks);
    json := RecognitionJson(result.text, result.confidence, result.language, result.processingTimeMs, blocks);
  }

  /**
   * For an ML Kit result, the array lists ML Kit's blocks in their order with their texts, and an
   * entry has a `boundingBox` exactly when ML Kit gave the block one, with the same four edges.
   */
  lemma BlocksJsonFollowsVision(vt: VisionText)
    ensures var r := BlocksJson(ConvertToBlocks(vt));
            && |r| == |vt.textBlocks|
            && forall i :: 0 <= i < |r| ==>
                 && r[i].text == vt.textBlocks[i].text
                 && (r[i].boundingBox.Some? <==> vt.textBlocks[i].boundingBox.Some?)
                 && (r[i].boundingBox.Some? ==>
                       var b, v := r[i].boundingBox.value, vt.textBlocks[i].boundingBox.value;
                       b.left == v.left && b.top == v.top && b.right == v.right && b.bottom == v.bottom)
  {
  }
}
