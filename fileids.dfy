/**
 * File ids as the batch and favourite handlers receive them: the path with
 * every `/` written as `,`, percent-encoded.
 */
module FileIds {
  import opened Wrappers
  import opened JsString

  /**
   * `decodeURIComponent(fileId.split(',').join('/'))`. `decode` is the
   * percent-decoding of section 2.1 of RFC 3986; None where it throws.
   */
  function DecodeFileId(decode: string -> Option<string>, fileId: string): (r: Option<string>)
    ensures r == decode(ReplaceChar(fileId, ',', '/'))
  {
    SplitJoinReplaces(fileId, ',', '/');
    decode(Join(Split(fileId, ','), '/'))
  }

  /** `fileIds.map(...)`: every id decoded, or None when one of them fails. */
  function DecodeAll(decode: string -> Option<string>, ids: seq<string>): (r: Option<seq<string>>)
    ensures r.Some? <==> forall i :: 0 <= i < |ids| ==> DecodeFileId(decode, ids[i]).Some?
    ensures r.Some? ==> |r.value| == |ids|
                        && forall i :: 0 <= i < |ids| ==> r.value[i] == DecodeFileId(decode, ids[i]).value
    decreases |ids|
  {
    if |ids| == 0 then Some([])
    else
      var last := DecodeFileId(decode, ids[|ids| - 1]);
      var prev := DecodeAll(decode, ids[..|ids| - 1]);
      if prev.None? || last.None? then None else Some(prev.value + [last.value])
  }
}
