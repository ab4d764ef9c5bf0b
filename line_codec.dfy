/**
 * The line terminator encoder of the proxy pipelines, and the line splitter it
 * pairs with on the receiving side.
 *
 * `AddLineBreak` is the encoder.  `Split` is its partner: a model of Netty's
 * line-based frame decoder, which cuts the received text at each line feed,
 * drops a carriage return before it, and fails on a frame longer than its
 * limit.  The round trip `Split(EncodeAll(msgs))` gives `msgs` back.
 */
module LineCodec {
  import opened Text
  import opened Wrappers

  /** `LineBreakAdder.encode`: the message followed by CR LF. */
  function AddLineBreak(msg: string): (r: string)
    ensures |r| == |msg| + 2
    ensures r[..|msg|] == msg
    ensures r[|msg|..] == "\r\n"
  {
    msg + "\r\n"
  }

  /** The text written for a sequence of messages, one encoded line each. */
  function EncodeAll(msgs: seq<string>): string {
    if msgs == [] then "" else AddLineBreak(msgs[0]) + EncodeAll(msgs[1..])
  }

  /** Complete frames, and the text after the last line feed that waits for more input. */
  datatype Decoded = Decoded(frames: seq<string>, pending: string)

  datatype DecodeError = TooLongFrame(length: nat)

  /** The index of the first line feed, or |s| if there is none. */
  function IndexOfLineFeed(s: string): (i: nat)
    ensures i <= |s|
    ensures i < |s| ==> s[i] == '\n'
    ensures forall j :: 0 <= j < i ==> s[j] != '\n'
  {
    if s == [] || s[0] == '\n' then 0 else 1 + IndexOfLineFeed(s[1..])
  }

  /** The frame before a line feed at `eol`, without a carriage return that precedes it. */
  function FrameBefore(s: string, eol: nat): string
    requires eol <= |s|
  {
    if eol > 0 && s[eol - 1] == '\r' then s[..eol - 1] else s[..eol]
  }

  /** The frame decoder with limit `maxLength` applied to the text received so far. */
  function Split(text: string, maxLength: nat): (r: Result<Decoded, DecodeError>)
    decreases |text|
  {
    var eol := IndexOfLineFeed(text);
    if eol == |text| then
      if |text| > maxLength then Failure(TooLongFrame(|text|)) else Success(Decoded([], text))
    else
      var frame := FrameBefore(text, eol);
      if |frame| > maxLength then Failure(TooLongFrame(|frame|))
      else
        match Split(text[eol + 1..], maxLength)
        case Failure(e) => Failure(e)
        case Success(d) => Success(Decoded([frame] + d.frames, d.pending))
  }

  /** One encoded line decodes back to its message, and the decoder goes on after its terminator. */
  lemma SplitEncodedLine(msg: string, rest: string, maxLength: nat)
    requires NoLineBreak(msg) && |msg| <= maxLength
    ensures IndexOfLineFeed(AddLineBreak(msg) + rest) == |msg| + 1
    ensures FrameBefore(AddLineBreak(msg) + rest, |msg| + 1) == msg
    ensures (AddLineBreak(msg) + rest)[|msg| + 2..] == rest
  {
    var t := AddLineBreak(msg) + rest;
    IndexOfLineFeedAt(t, |msg| + 1);
    assert t[..|msg|] == msg;
  }

  lemma {:induction false} IndexOfLineFeedAt(s: string, i: nat)
    requires i < |s| && s[i] == '\n'
    requires forall j :: 0 <= j < i ==> s[j] != '\n'
    ensures IndexOfLineFeed(s) == i
  {
    if i > 0 {
      IndexOfLineFeedAt(s[1..], i - 1);
    }
  }

  /**
   * Round trip: messages without CR or LF and within the limit are split back
   * out of their encoding, with nothing left pending.
   */
  lemma {:induction false} RoundTrip(msgs: seq<string>, maxLength: nat)
    requires forall i :: 0 <= i < |msgs| ==> NoLineBreak(msgs[i]) && |msgs[i]| <= maxLength
    ensures Split(EncodeAll(msgs), maxLength) == Success(Decoded(msgs, ""))
  {
    if msgs != [] {
      var rest := EncodeAll(msgs[1..]);
      SplitEncodedLine(msgs[0], rest, maxLength);
      RoundTrip(msgs[1..], maxLength);
      assert [msgs[0]] + msgs[1..] == msgs;
    }
  }

  /** Each message makes exactly one frame, of its own content. */
  lemma OneMessageOneFrame(msg: string, maxLength: nat)
    requires NoLineBreak(msg) && |msg| <= maxLength
    ensures Split(AddLineBreak(msg), maxLength) == Success(Decoded([msg], ""))
  {
    RoundTrip([msg], maxLength);
    assert EncodeAll([msg]) == AddLineBreak(msg) + "";
  }

  /** A line one character over the limit is refused. */
  lemma OverlongLineRejected(msg: string, maxLength: nat)
    requires NoLineBreak(msg) && |msg| == maxLength + 1
    ensures Split(AddLineBreak(msg), maxLength).Failure?
  {
    SplitEncodedLine(msg, "", maxLength + 1);
    assert AddLineBreak(msg) + "" == AddLineBreak(msg);
  }
}
