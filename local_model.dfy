/** The local-model path of bot/local_model.py: the loaded guard on the module globals _MODEL and
    _TOKENIZER and the rule that cuts the reply out of the decoded generation. Loading and
    generation themselves are a flag and a function passed in. */
module LocalModel {
  import opened Wrappers
  import opened Text
  import Ledger

  /** The marker the decoded generation is split at. */
  const MARKER := "assistant"

  const NOT_LOADED := "Модель еще не загружена! Проблема с init_local_model()!"

  /** The tail of get_local_model_response: the text after the first "assistant", stripped, or the
      whole decoded text stripped when the marker does not occur. */
  function ExtractReply(decoded: string): (reply: string)
    ensures reply != [] ==> !IsSpace(reply[0]) && !IsSpace(reply[|reply| - 1])
    ensures |reply| <= |decoded|
  {
    match Find(decoded, MARKER)
    case Some(i) => Strip(decoded[i + |MARKER|..])
    case None => Strip(decoded)
  }

  /** The split is made at the first occurrence only: whatever follows it, later markers included,
      is the reply once stripped. */
  lemma ExtractAfterFirst(prefix: string, rest: string)
    requires forall k :: 0 <= k < |prefix| ==> !OccursAt(prefix + MARKER + rest, MARKER, k)
    ensures ExtractReply(prefix + MARKER + rest) == Strip(rest)
  {
    var d := prefix + MARKER + rest;
    assert OccursAt(d, MARKER, |prefix|) by {
      assert d[|prefix|..|prefix| + |MARKER|] == MARKER;
    }
    assert Find(d, MARKER) == Some(|prefix|);
    assert d[|prefix| + |MARKER|..] == rest;
  }

  /** Without the marker the reply is the whole text, stripped. */
  lemma ExtractWithoutMarker(decoded: string)
    requires forall k :: 0 <= k <= |decoded| ==> !OccursAt(decoded, MARKER, k)
    ensures ExtractReply(decoded) == Strip(decoded)
  {
  }

  /** A second marker stays in the reply. */
  lemma ExtractKeepsLaterMarker(prefix: string, middle: string, tail: string)
    requires forall k :: 0 <= k < |prefix| ==> !OccursAt(prefix + MARKER + (middle + MARKER + tail), MARKER, k)
    ensures ExtractReply(prefix + MARKER + (middle + MARKER + tail)) == Strip(middle + MARKER + tail)
  {
    ExtractAfterFirst(prefix, middle + MARKER + tail);
  }

  /** What init_local_model did. */
  datatype InitOutcome = AlreadyLoaded | NoGpu | Loaded

  class Model {
    /** _MODEL is not None */
    var modelLoaded: bool
    /** _TOKENIZER is not None */
    var tokenizerLoaded: bool

    constructor ()
      ensures !modelLoaded && !tokenizerLoaded
    {
      modelLoaded := false;
      tokenizerLoaded := false;
    }

    /** init_local_model: nothing to do when both are set; without a GPU the process exits;
        otherwise both are loaded. */
    method InitLocalModel(gpuAvailable: bool) returns (outcome: InitOutcome)
      modifies this
      ensures old(modelLoaded && tokenizerLoaded) ==> outcome == AlreadyLoaded && unchanged(this)
      ensures !old(modelLoaded && tokenizerLoaded) && !gpuAvailable ==> outcome == NoGpu && unchanged(this)
      ensures !old(modelLoaded && tokenizerLoaded) && gpuAvailable ==> outcome == Loaded && modelLoaded && tokenizerLoaded
    {
      if modelLoaded && tokenizerLoaded {
        return AlreadyLoaded;
      }
      if !gpuAvailable {
        return NoGpu;
      }
      tokenizerLoaded := true;
      modelLoaded := true;
      outcome := Loaded;
    }

    /** get_local_model_response, with the generation and decoding given as a function. */
    method GetLocalModelResponse(generate: seq<Ledger.Message> -> string, messages: seq<Ledger.Message>)
      returns (r: Result<string, string>)
      ensures !(modelLoaded && tokenizerLoaded) ==> r == Failure(NOT_LOADED)
      ensures modelLoaded && tokenizerLoaded ==> r == Success(ExtractReply(generate(messages)))
    {
      if !modelLoaded || !tokenizerLoaded {
        return Failure(NOT_LOADED);
      }
      var decoded := generate(messages);
      r := Success(ExtractReply(decoded));
    }
  }
}
