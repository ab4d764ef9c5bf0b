/**
 * The outbound pipeline of the welcome-encoder unit test: the welcome encoder,
 * then the line terminator encoder, read back through a line-based frame
 * decoder with a 64-character limit.
 */
module EncoderPipeline {
  import opened Wrappers
  import opened Text
  import Welcome
  import LineCodec

  /** The frame limit of the decoder in the test's channel. */
  const TestMaxFrameLength: nat := 64

  /** A rewritten line without line breaks and within the limit reads back unchanged. */
  lemma ReadBack(msg: string, expected: string)
    requires Welcome.Rewrite(msg, "name", "key") == expected
    requires NoLineBreak(expected) && |expected| <= TestMaxFrameLength
    ensures LineCodec.Split(LineCodec.AddLineBreak(Welcome.Rewrite(msg, "name", "key")), TestMaxFrameLength)
            == Success(LineCodec.Decoded([expected], ""))
  {
    LineCodec.OneMessageOneFrame(expected, TestMaxFrameLength);
  }

  lemma RepliesHaveNoLineBreak()
    ensures NoLineBreak("[Test v1.0 name key]")
    ensures NoLineBreak("[Test v1.0.0-SCP-#123456 name key]")
  {
  }

  /* The four cases of the unit test: each input line reads back as the expected output line. */

  lemma ForwardCase()
    ensures LineCodec.Split(LineCodec.AddLineBreak(Welcome.Rewrite("forward", "name", "key")), TestMaxFrameLength)
            == Success(LineCodec.Decoded(["forward"], ""))
  {
    Welcome.PassThroughExamples();
    var line := "forward";
    assert NoLineBreak(line);
    ReadBack("forward", line);
  }

  lemma BannerCase()
    ensures LineCodec.Split(LineCodec.AddLineBreak(Welcome.Rewrite("[Test v1.0]", "name", "key")), TestMaxFrameLength)
            == Success(LineCodec.Decoded(["[Test v1.0 name key]"], ""))
  {
    Welcome.BannerExamples();
    var line := "[Test v1.0 name key]";
    RepliesHaveNoLineBreak();
    ReadBack("[Test v1.0]", line);
  }

  lemma TaggedBannerCase()
    ensures LineCodec.Split(LineCodec.AddLineBreak(Welcome.Rewrite("[Test v1.0.0-SCP-#123456]", "name", "key")), TestMaxFrameLength)
            == Success(LineCodec.Decoded(["[Test v1.0.0-SCP-#123456 name key]"], ""))
  {
    Welcome.BannerExamples();
    var line := "[Test v1.0.0-SCP-#123456 name key]";
    RepliesHaveNoLineBreak();
    ReadBack("[Test v1.0.0-SCP-#123456]", line);
  }

  lemma PathCase()
    ensures LineCodec.Split(LineCodec.AddLineBreak(Welcome.Rewrite("Test/RPC v1.0", "name", "key")), TestMaxFrameLength)
            == Success(LineCodec.Decoded(["Test/RPC v1.0"], ""))
  {
    Welcome.PassThroughExamples();
    var line := "Test/RPC v1.0";
    assert NoLineBreak(line);
    ReadBack("Test/RPC v1.0", line);
  }
}
