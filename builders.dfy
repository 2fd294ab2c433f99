/**
 * The two tag builders (`create_reply_cq` and `create_emoji_cq`) and the proof that
 * the parser reads back exactly what they write.
 */
module Builders {
  import opened Wrappers
  import opened PyStr
  import opened Escaping
  import opened CQCodes
  import opened Translation

  /** `CQCode_tool.create_reply_cq` */
  function CreateReplyCq(messageId: int): (tag: string)
    ensures StartsWith(tag, TagPrefix) && tag[|tag| - 1] == ']'
  {
    var tag := "[CQ:reply,id=" + IntToString(messageId) + "]";
    assert tag[..4] == TagPrefix;
    tag
  }

  /** `CQCode.create_emoji_cq` for a path that is already absolute. */
  function CreateEmojiCq(path: string): (tag: string)
    ensures StartsWith(tag, TagPrefix) && tag[|tag| - 1] == ']'
  {
    var tag := "[CQ:image,file=file:///" + Escape(path) + ",sub_type=1]";
    assert tag[..4] == TagPrefix;
    tag
  }

  /** A forward tag carrying `content` escaped once, as the transport delivers it. */
  function ForwardTag(content: string): string
  {
    "[CQ:forward,content=" + Escape(content) + "]"
  }

  /** `key=value` with a key free of `=` splits back into that key and value. */
  lemma SegmentSplit(key: string, value: string)
    requires '=' !in key
    ensures '=' in key + "=" + value
    ensures KeyOf(key + "=" + value) == key && ValueOf(key + "=" + value) == value
  {
    var seg := key + "=" + value;
    assert seg[|key|] == '=';
    assert seg[..|key|] == key;
    SplitOnceAt(seg, '=', |key|);
    assert seg[|key| + 1..] == value;
  }

  lemma ParamsOfOne(segment: string)
    ensures ParamsOf([segment]) == if '=' in segment then map[KeyOf(segment) := Unescape(ValueOf(segment))] else map[]
  {
    assert [segment][..0] == [];
  }

  lemma ParamsOfTwo(first: string, second: string)
    requires '=' in second
    ensures ParamsOf([first, second]) == ParamsOf([first])[KeyOf(second) := Unescape(ValueOf(second))]
  {
    assert [first, second][..1] == [first];
  }

  /** The segments of a built reply tag: the type and the id. */
  lemma ReplyTagSegments(messageId: int)
    ensures StartsWith(CreateReplyCq(messageId), TagPrefix)
    ensures Split(Inner(CreateReplyCq(messageId)), ',') == ["CQ:reply", "id" + "=" + IntToString(messageId)]
  {
    var digits := IntToString(messageId);
    var idSegment := "id" + "=" + digits;
    ReplyBracketed(digits);
    InnerBracketed("CQ:reply" + [','] + idSegment);
    assert ',' !in digits;
    SplitTwo("CQ:reply", idSegment, ',');
  }

  lemma ReplyBracketed(digits: string)
    ensures "[CQ:reply,id=" + digits + "]" == "[" + ("CQ:reply" + [','] + ("id" + "=" + digits)) + "]"
  {
    assert "[CQ:reply,id=" == "[" + "CQ:reply" + [','] + ("id" + "=");
  }

  /** Parsing the tag built for a message id gives a reply code whose only parameter is that id. */
  lemma ReplyTagRoundTrip(messageId: int)
    ensures Parse(CreateReplyCq(messageId)) == CQCode("reply", map["id" := IntToString(messageId)])
  {
    var digits := IntToString(messageId);
    var idSegment := "id" + "=" + digits;
    ReplyTagSegments(messageId);
    var head := "CQ:reply";
    assert head == "CQ:" + "reply";
    assert Drop(head, 3) == "reply";
    SegmentSplit("id", digits);
    assert '&' !in digits;
    ParamsOfOne(idSegment);
    assert [head, idSegment][1..] == [idSegment];
  }

  /** The text between the brackets of a built sticker tag. */
  function EmojiInterior(escaped: string): string
  {
    "CQ:image,file=file:///" + escaped + ",sub_type=1"
  }

  lemma EmojiTagIsTag(path: string)
    ensures StartsWith(CreateEmojiCq(path), TagPrefix)
  {
    assert CreateEmojiCq(path)[..4] == TagPrefix;
  }

  lemma EmojiBracketed(escaped: string)
    ensures "[CQ:image,file=file:///" + escaped + ",sub_type=1]" == "[" + EmojiInterior(escaped) + "]"
  {
    assert "[CQ:image,file=file:///" == "[" + "CQ:image,file=file:///";
    assert ",sub_type=1]" == ",sub_type=1" + "]";
  }

  lemma EmojiTagInner(path: string)
    ensures Inner(CreateEmojiCq(path)) == EmojiInterior(Escape(path))
  {
    EmojiBracketed(Escape(path));
    InnerBracketed(EmojiInterior(Escape(path)));
  }

  /** Three separator-free parts joined by the separator split back into those parts. */
  lemma {:induction false} SplitThree(a: string, b: string, c: string, d: char)
    requires d !in a && d !in b && d !in c
    ensures Split(a + [d] + b + [d] + c, d) == [a, b, c]
  {
    assert a + [d] + b + [d] + c == a + [d] + (b + [d] + c);
    SplitCons(a, b + [d] + c, d);
    SplitCons(b, c, d);
    SplitNoSep(c, d);
  }

  lemma EmojiInteriorSegments(escaped: string)
    requires ',' !in escaped
    ensures Split(EmojiInterior(escaped), ',') ==
      ["CQ:image", "file" + "=" + ("file:///" + escaped), "sub_type" + "=" + "1"]
  {
    var fileSegment := "file" + "=" + ("file:///" + escaped);
    assert "CQ:image,file=file:///" == "CQ:image" + [','] + ("file" + "=" + "file:///");
    assert ",sub_type=1" == [','] + ("sub_type" + "=" + "1");
    assert EmojiInterior(escaped) == "CQ:image" + [','] + fileSegment + [','] + ("sub_type" + "=" + "1");
    SplitThree("CQ:image", fileSegment, "sub_type" + "=" + "1", ',');
  }

  /** The segments of a built sticker tag: the type, the escaped file URL and the sub-type. */
  lemma EmojiTagSegments(path: string)
    ensures StartsWith(CreateEmojiCq(path), TagPrefix)
    ensures Split(Inner(CreateEmojiCq(path)), ',') ==
      ["CQ:image", "file" + "=" + ("file:///" + Escape(path)), "sub_type" + "=" + "1"]
  {
    EmojiTagIsTag(path);
    EmojiTagInner(path);
    EscapeHasNoSeparators(path);
    EmojiInteriorSegments(Escape(path));
  }

  /** The parameter segments of a built sticker tag give back the path's URL and the sub-type. */
  lemma EmojiParams(path: string)
    ensures ParamsOf(["file" + "=" + ("file:///" + Escape(path)), "sub_type" + "=" + "1"])
      == map["file" := "file:///" + path, "sub_type" := "1"]
  {
    var escaped := Escape(path);
    var fileSegment := "file" + "=" + ("file:///" + escaped);
    var subTypeSegment := "sub_type" + "=" + "1";
    SegmentSplit("file", "file:///" + escaped);
    SegmentSplit("sub_type", "1");
    UnescapeSkip("file:///", escaped);
    EscapeRoundTrip(path);
    ParamsOfOne(fileSegment);
    ParamsOfTwo(fileSegment, subTypeSegment);
  }

  /**
   * Parsing the tag built for a sticker path gives an image code with exactly the
   * file URL of that path and `sub_type` 1, whatever reserved characters the path holds.
   */
  lemma EmojiTagRoundTrip(path: string)
    ensures Parse(CreateEmojiCq(path)) == CQCode("image", map["file" := "file:///" + path, "sub_type" := "1"])
  {
    var fileSegment := "file" + "=" + ("file:///" + Escape(path));
    var subTypeSegment := "sub_type" + "=" + "1";
    EmojiTagSegments(path);
    var head := "CQ:image";
    assert head == "CQ:" + "image";
    assert Drop(head, 3) == "image";
    EmojiParams(path);
    assert [head, fileSegment, subTypeSegment][1..] == [fileSegment, subTypeSegment];
  }

  /** A built sticker tag has no `url`, so it translates to the sticker placeholder without a download. */
  lemma EmojiTagTranslation(path: string, reply: Option<ReplyContext>, env: Env)
    ensures Translate(Parse(CreateEmojiCq(path)), reply, env) == Success("[表情包]")
  {
    EmojiTagRoundTrip(path);
  }

  /** A built reply tag translates like the replied-to message the caller attaches. */
  lemma ReplyTagTranslation(messageId: int, reply: Option<ReplyContext>, env: Env)
    ensures Translate(Parse(CreateReplyCq(messageId)), reply, env) == Reply(reply, env)
  {
    ReplyTagRoundTrip(messageId);
  }

  lemma ForwardTagIsTag(content: string)
    ensures StartsWith(ForwardTag(content), TagPrefix)
  {
    assert ForwardTag(content)[..4] == TagPrefix;
  }

  lemma ForwardBracketed(escaped: string)
    ensures "[CQ:forward,content=" + escaped + "]" == "[" + ("CQ:forward" + [','] + ("content" + "=" + escaped)) + "]"
  {
    assert "[CQ:forward,content=" == "[" + "CQ:forward" + [','] + ("content" + "=");
  }

  lemma ForwardTagInner(content: string)
    ensures Inner(ForwardTag(content)) == "CQ:forward" + [','] + ("content" + "=" + Escape(content))
  {
    ForwardBracketed(Escape(content));
    InnerBracketed("CQ:forward" + [','] + ("content" + "=" + Escape(content)));
  }

  /** Two separator-free parts joined by the separator split back into those parts. */
  lemma SplitTwo(a: string, b: string, d: char)
    requires d !in a && d !in b
    ensures Split(a + [d] + b, d) == [a, b]
  {
    SplitCons(a, b, d);
    SplitNoSep(b, d);
  }

  lemma ForwardTagSegments(content: string)
    ensures StartsWith(ForwardTag(content), TagPrefix)
    ensures Split(Inner(ForwardTag(content)), ',') == ["CQ:forward", "content" + "=" + Escape(content)]
  {
    ForwardTagIsTag(content);
    ForwardTagInner(content);
    EscapeHasNoSeparators(content);
    SplitTwo("CQ:forward", "content" + "=" + Escape(content), ',');
  }

  /**
   * Forward content that arrives escaped once is unescaped by the parser and then a
   * second time before decoding, so the decoder receives `Unescape(content)`, not
   * `content` (`Escaping.UnescapeTwiceCorrupts` shows the two differ).
   */
  lemma ForwardContentUnescapedTwice(content: string)
    ensures Parse(ForwardTag(content)) == CQCode("forward", map["content" := content])
    ensures Unescape(Parse(ForwardTag(content)).params["content"]) == Unescape(content)
  {
    var escaped := Escape(content);
    var head := "CQ:forward";
    var segment := "content" + "=" + escaped;
    ForwardTagSegments(content);
    assert head == "CQ:" + "forward";
    assert Drop(head, 3) == "forward";
    SegmentSplit("content", escaped);
    EscapeRoundTrip(content);
    ParamsOfOne(segment);
    assert [head, segment][1..] == [segment];
  }
}
