/**
 * Translation of a parsed CQ code into its plain-text stand-in (`CQCode.translate`
 * and the per-type helpers). Everything the source reaches outside this file is a
 * parameter: the image download, the vision-model description, the nickname
 * lookup, the `Message` class's processed text, Python literal decoding of forward
 * content and the configured bot identity.
 */
module Translation {
  import opened Wrappers
  import opened PyStr
  import opened Escaping
  import opened CQCodes

  /** The message a reply code refers to (its sender, id and content). */
  datatype ReplyContext = ReplyContext(senderId: int, senderNickname: string, messageId: int, message: string)

  /** The arguments the source passes when it builds a `Message` to get its processed text. */
  datatype MessageInput = MessageInput(userId: int, messageId: int, rawMessage: string, groupId: int)

  /** The `sender` record of a forwarded message; an absent field is `None`. */
  datatype Sender = Sender(card: Option<string>, nickname: Option<string>)

  /**
   * One decoded message of a forward bundle. `partTypes` holds the `type` of each
   * element of its `message` array; the integer fields already carry the source's default 0.
   */
  datatype ForwardEntry = ForwardEntry(
    sender: Sender, rawMessage: string, partTypes: seq<Option<string>>,
    userId: int, messageId: int, groupId: int)

  /** An exception that escapes `translate`. */
  datatype Raised =
    | DescriptionFailed  // any exception of the description call, its `ValueError` included
    | MessageFailed      // building or processing a `Message` raised

  /** The collaborators and configuration the translation depends on. */
  datatype Env = Env(
    fetchImage: string -> Option<string>,          // `get_img`: base64 text, or None
    describeImage: string -> Option<string>,       // the vision model's answer, None when the call fails
    nicknameOf: string -> Option<string>,          // `Message(user_id=qq).user_nickname`, None when it raises
    processMessage: MessageInput -> Option<string>,// `Message(...).processed_plain_text`, None when it raises
    decodeForward: string -> Option<seq<ForwardEntry>>, // `ast.literal_eval`, None when it fails
    botId: int,                                    // `global_config.BOT_QQ`
    botNickname: string)                           // `global_config.BOT_NICKNAME`

  const FacePlaceholder := "[表情]"
  const PhotoPlaceholder := "[图片]"
  const StickerPlaceholder := "[表情包]"
  const ForwardPlaceholder := "[转发消息]"
  const EmptyMessagePlaceholder := "[空消息]"
  const ReplyPlaceholder := "[回复某人消息]"
  const UnknownUser := "未知用户"

  /** The group id every code is built with. */
  const CodeGroupId := 0

  // ---------------------------------------------------------------------------
  // Images and stickers

  /** An image code takes the photo path exactly when `sub_type` is `"0"`. */
  predicate IsPhoto(params: map<string, string>)
  {
    "sub_type" in params && params["sub_type"] == "0"
  }

  /** `get_image_description`: the model's answer wrapped as a picture, or its failure. */
  function Describe(image: string, env: Env): (r: Result<string, Raised>)
    ensures r.Failure? <==> env.describeImage(image).None?
    ensures r.Failure? ==> r.error == DescriptionFailed
    ensures r.Success? ==> StartsWith(r.value, "[图片：") && r.value[|r.value| - 1] == ']'
  {
    match env.describeImage(image)
    case Some(d) =>
      var text := "[图片：" + d + "]";
      assert text[..|"[图片："|] == "[图片：";
      Success(text)
    case None => Failure(DescriptionFailed)
  }

  /**
   * `translate_image` for photos and `translate_emoji` for everything else: the
   * placeholder when there is no `url` or the download gives nothing (an empty
   * string is falsy too), else the description. Both paths ask for the photo
   * description.
   */
  function Picture(params: map<string, string>, env: Env): (r: Result<string, Raised>)
    ensures r.Failure? ==> r.error == DescriptionFailed && "url" in params
  {
    var placeholder := if IsPhoto(params) then PhotoPlaceholder else StickerPlaceholder;
    if "url" !in params then Success(placeholder)
    else
      match env.fetchImage(params["url"])
      case None => Success(placeholder)
      case Some(image) => if image == "" then Success(placeholder) else Describe(image, env)
  }

  // ---------------------------------------------------------------------------
  // Replies

  /**
   * `translate_reply`: the generic phrase without a replied-to message or without a
   * (truthy) sender id; otherwise the processed text of the replied-to message,
   * attributed to the bot's nickname when the sender is the bot.
   */
  function Reply(reply: Option<ReplyContext>, env: Env): (r: Result<string, Raised>)
    ensures r.Failure? ==> r.error == MessageFailed && reply.Some? && reply.value.senderId != 0
    ensures reply.Some? && reply.value.senderId != 0 &&
      env.processMessage(MessageInput(reply.value.senderId, reply.value.messageId, reply.value.message, CodeGroupId)).None?
      ==> r == Failure(MessageFailed)
  {
    if reply.None? || reply.value.senderId == 0 then Success(ReplyPlaceholder)
    else
      var r := reply.value;
      match env.processMessage(MessageInput(r.senderId, r.messageId, r.message, CodeGroupId))
      case None => Failure(MessageFailed)
      case Some(text) =>
        var name := if r.senderId == env.botId then env.botNickname else r.senderNickname;
        Success("[回复 " + name + " 的消息: " + text + "]")
  }

  // ---------------------------------------------------------------------------
  // Forward bundles

  /** `sender.get('card') or sender.get('nickname', '未知用户')` */
  function Nickname(sender: Sender): (name: string)
    ensures name == UnknownUser
      || (sender.card.Some? && name == sender.card.value != "")
      || (sender.nickname.Some? && name == sender.nickname.value)
  {
    if sender.card.Some? && sender.card.value != "" then sender.card.value
    else if sender.nickname.Some? then sender.nickname.value
    else UnknownUser
  }

  predicate HasForwardPart(partTypes: seq<Option<string>>)
  {
    exists i :: 0 <= i < |partTypes| && partTypes[i] == Some("forward")
  }

  /**
   * The text shown for one forwarded message: the placeholder when one of its parts
   * is itself a forward (no recursion), the empty-message placeholder when it has no
   * raw text, else the processed text; None when processing raised.
   */
  function EntryBody(entry: ForwardEntry, env: Env): (body: Option<string>)
    ensures body.None? ==> !HasForwardPart(entry.partTypes) && entry.rawMessage != ""
    ensures !HasForwardPart(entry.partTypes) && entry.rawMessage != "" ==>
      body == env.processMessage(MessageInput(entry.userId, entry.messageId, entry.rawMessage, entry.groupId))
  {
    if HasForwardPart(entry.partTypes) then Some(ForwardPlaceholder)
    else if entry.rawMessage == "" then Some(EmptyMessagePlaceholder)
    else env.processMessage(MessageInput(entry.userId, entry.messageId, entry.rawMessage, entry.groupId))
  }

  function Line(entry: ForwardEntry, body: string): string
  {
    Nickname(entry.sender) + ": " + body
  }

  /** The formatted lines of a bundle, in order; None as soon as one message fails. */
  function EntryLines(entries: seq<ForwardEntry>, env: Env): (lines: Option<seq<string>>)
    ensures lines.Some? <==> forall i :: 0 <= i < |entries| ==> EntryBody(entries[i], env).Some?
    ensures lines.Some? ==> |lines.value| == |entries|
    ensures lines.Some? ==> forall i :: 0 <= i < |entries| ==>
      EntryBody(entries[i], env).Some? && lines.value[i] == Line(entries[i], EntryBody(entries[i], env).value)
  {
    if entries == [] then Some([])
    else
      var init := entries[..|entries| - 1];
      var last := entries[|entries| - 1];
      match EntryLines(init, env)
      case None =>
        assert exists i :: 0 <= i < |init| && EntryBody(init[i], env).None?;
        None
      case Some(lines) =>
        match EntryBody(last, env)
        case None => None
        case Some(body) => Some(lines + [Line(last, body)])
  }

  /**
   * `translate_forward`: the placeholder without `content`, when decoding fails or
   * when any message fails; else the formatted lines joined by newlines inside
   * `[转发消息:\n` ... `]`. The content is unescaped here once more, after the parser
   * has already unescaped it.
   */
  function ForwardText(params: map<string, string>, env: Env): (text: string)
    ensures text == ForwardPlaceholder || (StartsWith(text, "[转发消息:\n") && text[|text| - 1] == ']')
  {
    if "content" !in params then ForwardPlaceholder
    else
      match env.decodeForward(Unescape(params["content"]))
      case None => ForwardPlaceholder
      case Some(entries) =>
        match EntryLines(entries, env)
        case None => ForwardPlaceholder
        case Some(lines) =>
          var text := "[转发消息:\n" + Join(lines, "\n") + "]";
          assert text[..|"[转发消息:\n"|] == "[转发消息:\n";
          text
  }

  /**
   * The `for`/`else` over a message's parts in `translate_forward`: the first part
   * of type `forward` ends the scan.
   */
  method ContainsForward(partTypes: seq<Option<string>>) returns (nested: bool)
    ensures nested == HasForwardPart(partTypes)
  {
    nested := false;
    var j := 0;
    while j < |partTypes| && !nested
      invariant 0 <= j <= |partTypes|
      invariant nested ==> j < |partTypes| && partTypes[j] == Some("forward")
      invariant forall k :: 0 <= k < j ==> partTypes[k] != Some("forward")
      decreases |partTypes| - j, if nested then 0 else 1
    {
      if partTypes[j] == Some("forward") {
        nested := true;
      } else {
        j := j + 1;
      }
    }
  }

  /**
   * The body of the loop of `translate_forward` for one message: the scan of its
   * parts, then the empty-message placeholder or the processed text; None when
   * processing raised.
   */
  method FormatEntry(msg: ForwardEntry, env: Env) returns (body: Option<string>)
    ensures body == EntryBody(msg, env)
  {
    var nested := ContainsForward(msg.partTypes);
    if nested {
      body := Some(ForwardPlaceholder);
    } else if msg.rawMessage == "" {
      body := Some(EmptyMessagePlaceholder);
    } else {
      body := env.processMessage(MessageInput(msg.userId, msg.messageId, msg.rawMessage, msg.groupId));
    }
  }

  /** Extending a bundle prefix by one message that succeeds adds its line. */
  lemma EntryLinesStep(entries: seq<ForwardEntry>, i: nat, env: Env, lines: seq<string>)
    requires i < |entries| && EntryLines(entries[..i], env) == Some(lines)
    requires EntryBody(entries[i], env).Some?
    ensures EntryLines(entries[..i + 1], env) == Some(lines + [Line(entries[i], EntryBody(entries[i], env).value)])
  {
    assert entries[..i + 1][..i] == entries[..i];
  }

  /** One failing message makes the whole bundle fail. */
  lemma EntryLinesFail(entries: seq<ForwardEntry>, i: nat, env: Env)
    requires i < |entries| && EntryBody(entries[i], env).None?
    ensures EntryLines(entries, env).None?
  {
  }

  /** The loop of `translate_forward`: one line per message, in order; None as soon as one message fails. */
  method FormatBundle(messages: seq<ForwardEntry>, env: Env) returns (lines: Option<seq<string>>)
    ensures lines == EntryLines(messages, env)
  {
    var formatted: seq<string> := [];
    var i := 0;
    while i < |messages|
      invariant 0 <= i <= |messages|
      invariant EntryLines(messages[..i], env) == Some(formatted)
    {
      var msg := messages[i];
      var nickname := Nickname(msg.sender);
      var body := FormatEntry(msg, env);
      if body.None? {
        // the exception reaches the handler around the whole bundle
        EntryLinesFail(messages, i, env);
        return None;
      }
      EntryLinesStep(messages, i, env, formatted);
      formatted := formatted + [nickname + ": " + body.value];
      i := i + 1;
    }
    assert messages[..i] == messages;
    lines := Some(formatted);
  }

  /** `translate_forward` as the source runs it: decoding, the loop over the messages, the layout. */
  method TranslateForward(params: map<string, string>, env: Env) returns (text: string)
    ensures text == ForwardText(params, env)
  {
    if "content" !in params {
      return ForwardPlaceholder;
    }
    var content := Unescape(params["content"]);
    var decoded := env.decodeForward(content);
    if decoded.None? {
      return ForwardPlaceholder;
    }
    var lines := FormatBundle(decoded.value, env);
    if lines.None? {
      return ForwardPlaceholder;
    }
    text := "[转发消息:\n" + Join(lines.value, "\n") + "]";
  }

  // ---------------------------------------------------------------------------
  // Dispatch

  /** `CQCode.translate`: the plain-text stand-in of a code, or the exception it raises. */
  function Translate(code: CQCode, reply: Option<ReplyContext>, env: Env): (r: Result<string, Raised>)
    ensures r.Failure? ==>
      (code.kind == "image" && r.error == DescriptionFailed) ||
      ((code.kind == "reply" || code.kind == "at") && r.error == MessageFailed)
  {
    match code.kind
    case "text" => Success(Get(code.params, "text", ""))
    case "image" => Picture(code.params, env)
    case "at" =>
      (match env.nicknameOf(Get(code.params, "qq", ""))
       case None => Failure(MessageFailed)
       case Some(nickname) => Success("@" + nickname))
    case "reply" => Reply(reply, env)
    case "face" => Success(FacePlaceholder)
    case "forward" => Success(ForwardText(code.params, env))
    case _ => Success("[" + code.kind + "]")
  }

  predicate KnownKind(kind: string)
  {
    kind in {"text", "image", "at", "reply", "face", "forward"}
  }
}

/** What the translation promises, per type of code. */
module TranslationFacts {
  import opened Wrappers
  import opened PyStr
  import opened CQCodes
  import opened Escaping
  import opened Translation

  /**
   * Each type's arm: image, reply and forward codes go to their helpers; text, face and
   * unknown codes never fail; a mention fails only when its `Message` does.
   */
  lemma DispatchFixedTexts(code: CQCode, reply: Option<ReplyContext>, env: Env)
    ensures code.kind == "text" ==>
      Translate(code, reply, env) == Success(if "text" in code.params then code.params["text"] else "")
    ensures code.kind == "image" ==> Translate(code, reply, env) == Picture(code.params, env)
    ensures code.kind == "reply" ==> Translate(code, reply, env) == Reply(reply, env)
    ensures code.kind == "forward" ==> Translate(code, reply, env) == Success(ForwardText(code.params, env))
    ensures code.kind == "face" ==> Translate(code, reply, env) == Success("[表情]")
    ensures code.kind == "at" ==>
      Translate(code, reply, env) ==
        (match env.nicknameOf(Get(code.params, "qq", ""))
         case None => Failure(MessageFailed)
         case Some(nickname) => Success("@" + nickname))
    ensures !KnownKind(code.kind) ==> Translate(code, reply, env) == Success("[" + code.kind + "]")
  {
  }

  /**
   * The text code of untagged input translates to that input. `from_cq_code` itself
   * returns such a code without translating it; the record path does translate it.
   */
  lemma PlainTextPassesThrough(s: string, reply: Option<ReplyContext>, env: Env)
    requires !StartsWith(s, TagPrefix)
    ensures Translate(Parse(s), reply, env) == Success(s)
  {
  }

  /**
   * An image code is a photo when `sub_type` is `"0"` and a sticker otherwise; without
   * a `url`, or when the download yields nothing, it is the matching placeholder and
   * the description service plays no part.
   */
  lemma PictureFallback(params: map<string, string>, env: Env, otherDescribe: string -> Option<string>)
    requires "url" !in params || env.fetchImage(params["url"]) in {None, Some("")}
    ensures Picture(params, env) == Success(if IsPhoto(params) then "[图片]" else "[表情包]")
    ensures Picture(params, env.(describeImage := otherDescribe)) == Picture(params, env)
  {
  }

  /**
   * With a downloaded image, photos and stickers alike are described by the photo
   * prompt, and a failed description call is an exception, not a placeholder.
   */
  lemma PictureDescribed(params: map<string, string>, env: Env)
    requires "url" in params && env.fetchImage(params["url"]).Some?
    requires env.fetchImage(params["url"]).value != ""
    ensures var d := env.describeImage(env.fetchImage(params["url"]).value);
      Picture(params, env) == if d.Some? then Success("[图片：" + d.value + "]") else Failure(DescriptionFailed)
  {
  }

  /** Without a replied-to message, or without a sender id, the phrase is generic and nothing is processed. */
  lemma ReplyWithoutSender(reply: Option<ReplyContext>, env: Env, otherProcess: MessageInput -> Option<string>)
    requires reply.None? || reply.value.senderId == 0
    ensures Reply(reply, env) == Success("[回复某人消息]")
    ensures Reply(reply, env.(processMessage := otherProcess)) == Reply(reply, env)
  {
  }

  /** A reply names the bot when the bot sent the replied-to message, else the sender. */
  lemma ReplyNamesSender(r: ReplyContext, env: Env)
    requires r.senderId != 0
    requires env.processMessage(MessageInput(r.senderId, r.messageId, r.message, 0)).Some?
    ensures var text := env.processMessage(MessageInput(r.senderId, r.messageId, r.message, 0)).value;
      Reply(Some(r), env) ==
        Success("[回复 " + (if r.senderId == env.botId then env.botNickname else r.senderNickname) + " 的消息: " + text + "]")
  {
  }

  /** A forward code without content, with undecodable content, or with a failing message is the placeholder. */
  lemma ForwardFallbacks(params: map<string, string>, env: Env)
    ensures "content" !in params ==> ForwardText(params, env) == "[转发消息]"
    ensures "content" in params ==>
      var decoded := env.decodeForward(Unescape(params["content"]));
      (decoded.None? ||
       exists i :: 0 <= i < |decoded.value| && EntryBody(decoded.value[i], env).None?) ==>
      ForwardText(params, env) == "[转发消息]"
  {
  }

  /** An empty bundle gives the header and the closing bracket only. */
  lemma ForwardEmptyBundle(params: map<string, string>, env: Env)
    requires "content" in params && env.decodeForward(Unescape(params["content"])) == Some([])
    ensures ForwardText(params, env) == "[转发消息:\n]"
  {
  }

  /** The lines of a bundle, one per message in order: `nickname: body`. */
  function BundleLines(entries: seq<ForwardEntry>, env: Env): seq<string>
    requires forall i :: 0 <= i < |entries| ==> EntryBody(entries[i], env).Some?
  {
    seq(|entries|, i requires 0 <= i < |entries| => Line(entries[i], EntryBody(entries[i], env).value))
  }

  /** A decodable bundle whose messages all succeed is rendered line by line, in input order. */
  lemma ForwardLayout(params: map<string, string>, env: Env)
    requires "content" in params && env.decodeForward(Unescape(params["content"])).Some?
    requires var entries := env.decodeForward(Unescape(params["content"])).value;
      forall i :: 0 <= i < |entries| ==> EntryBody(entries[i], env).Some?
    ensures var entries := env.decodeForward(Unescape(params["content"])).value;
      ForwardText(params, env) == "[转发消息:\n" + Join(BundleLines(entries, env), "\n") + "]"
  {
    var entries := env.decodeForward(Unescape(params["content"])).value;
    var lines := EntryLines(entries, env);
    assert lines.value == BundleLines(entries, env);
  }

  /**
   * A message holding a nested forward is shown as the placeholder whatever the
   * message processor would do with it: nesting is never followed.
   */
  lemma NestedForwardNotFollowed(entry: ForwardEntry, env: Env, otherProcess: MessageInput -> Option<string>)
    requires HasForwardPart(entry.partTypes)
    ensures EntryBody(entry, env) == Some("[转发消息]")
    ensures EntryBody(entry, env.(processMessage := otherProcess)) == EntryBody(entry, env)
  {
  }

  /** A forwarded message without a nested forward and without raw text shows as `[空消息]`, unprocessed. */
  lemma EmptyMessageShown(entry: ForwardEntry, env: Env, otherProcess: MessageInput -> Option<string>)
    requires !HasForwardPart(entry.partTypes) && entry.rawMessage == ""
    ensures EntryBody(entry, env) == Some("[空消息]")
    ensures EntryBody(entry, env.(processMessage := otherProcess)) == EntryBody(entry, env)
  {
  }

  /** Who a forwarded message is attributed to: a non-empty card, else the nickname, else `未知用户`. */
  lemma NicknameChoice(sender: Sender)
    ensures sender.card.Some? && sender.card.value != "" ==> Nickname(sender) == sender.card.value
    ensures (sender.card.None? || sender.card.value == "") && sender.nickname.Some? ==> Nickname(sender) == sender.nickname.value
    ensures (sender.card.None? || sender.card.value == "") && sender.nickname.None? ==> Nickname(sender) == "未知用户"
  {
  }
}
