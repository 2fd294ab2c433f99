# CQ-code decoder: a verified Dafny model

A chat message from the OneBot transport carries rich content as inline CQ codes:
bracketed tags such as `[CQ:image,url=...,sub_type=0]` or `[CQ:reply,id=42]`.
`src/plugins/chat/cq_code.py` turns each tag into a `CQCode` (a type and a parameter
dictionary). Every tag, and every code built from a structured record, is then translated
into a plain-text stand-in (`translated_plain_text`); text outside a tag is not. This
project models that file and proves what it does.

- `wrappers.dfy` — `Option` and `Result`.
- `pystr.dfy` (module `PyStr`) — the Python string operations the code relies on, with
  Python's semantics: `str.replace`, `str.split`, `str.split(c, 1)`, `startswith`,
  slices, `str(int)` and `dict.get`.
- `escaping.dfy` (module `Escaping`) — the escape chain of `create_emoji_cq` (`Escape`)
  and `CQCode.unescape` (`Unescape`). `PartialEscape` describes a string half-way through
  either chain, and each `str.replace` step is proved to move one character.
- `cq_code.dfy` (module `CQCodes`) — the `CQCode` value, the string parser `Parse`, the
  parameter fold `ParamsOf` and the record entry point `FromRecord`.
- `translation.dfy` (modules `Translation` and `TranslationFacts`) — the translation
  `Translate` and its helpers `Picture`, `Reply` and `ForwardText`. The loop of
  `translate_forward` is imperative: `FormatEntry` handles one message, `FormatBundle`
  loops over the bundle, and `TranslateForward` is the whole operation.
- `entry_points.dfy` (module `EntryPoints`) — `from_cq_code` as a method whose loop fills
  the parameter map and which translates tags only, and `cq_from_dict_to_class`.
- `builders.dfy` (module `Builders`) — `create_reply_cq` and `create_emoji_cq`, with proofs
  that the parser reads back what they write.
- `constructor_call.dfy` (module `ConstructorCall`) — how Python binds the arguments of
  the dataclass constructor (see Findings).

Collaborators outside the file are fields of the `Env` value passed to the translation:
- `fetchImage` is `get_img`;
- `describeImage` is the vision-model call of `get_image_description`;
- `nicknameOf` is `Message(user_id=...).user_nickname`, or nothing when building that `Message` raises;
- `processMessage` is `Message(...).processed_plain_text`;
- `decodeForward` is `ast.literal_eval`;
- `botId` and `botNickname` are `global_config.BOT_QQ` and `global_config.BOT_NICKNAME`.

An exception that escapes `translate` is the `Failure` side of its `Result`. The exceptions
this model represents are `DescriptionFailed` and `MessageFailed`. `DescriptionFailed` stands
for any exception of the description call: the `ValueError` it raises when the answer is
unusable, and also a `RequestException` of its `requests.post`. `MessageFailed` is raised
while building or processing a `Message`. Exceptions of `get_img` are not represented (see
Left out).

Some points of the code's behaviour that are easy to get wrong:
- The escape order is `&`, `[`, `]`, `,`. Because `&` goes first, the order of the other
  three does not change the result (`EscapeIsEntitywise`).
- Stickers are described with the photo prompt. `translate_emoji` calls
  `get_image_description`, so a described sticker reads `[图片：...]`.
- A failed description raises; there is no placeholder fallback.
- A nested forward is stopped by spotting a `forward` part. There is no depth counter.
- The mention type is `at`.
- The placeholders are Chinese strings, kept exactly.
- `from_cq_code` returns text outside a tag without calling `translate`, so that
  code's `translated_plain_text` stays `None`.

## Model

| member | source | states |
|---|---|---|
| `Escaping.Escape` | src/plugins/chat/cq_code.py:388-391 | text without `&`, `[`, `]` or `,` is left unchanged; `EscapeIsEntitywise`, `EscapeRoundTrip` and `EscapeHasNoSeparators` give the rest |
| `Escaping.Unescape` | src/plugins/chat/cq_code.py:369-374 | every entity starts with `&`, so text without `&` is left unchanged; `UnescapeStep` and `EscapeRoundTrip` give the rest |
| `Escaping.EscapeRoundTrip` | src/plugins/chat/cq_code.py:369-391 | unescaping the output of the escape chain gives back the original string, for every string |
| `Escaping.EscapeIsEntitywise` | src/plugins/chat/cq_code.py:388-391 | the four chained replaces turn each `&`, `[`, `]`, `,` into its own entity and keep every other character |
| `Escaping.EscapeStep` | src/plugins/chat/cq_code.py:388-391 | one replace of the escape chain turns exactly one reserved character into its entity |
| `Escaping.UnescapeStep` | src/plugins/chat/cq_code.py:371-374 | one replace of the unescape chain turns exactly one entity back into its character, because the `&` entity is undone last |
| `Escaping.EscapeHasNoSeparators` | src/plugins/chat/cq_code.py:388-391 | an escaped value contains no `,`, `[` or `]` |
| `Escaping.EscapeInjective` | src/plugins/chat/cq_code.py:388-391 | distinct strings escape to distinct strings |
| `Escaping.UnescapeSkip` | src/plugins/chat/cq_code.py:371-374 | unescaping leaves a prefix without `&` untouched |
| `Escaping.UnescapeTwiceCorrupts` | src/plugins/chat/cq_code.py:371-374 | unescape is not idempotent: the escaped text `&#44;` survives one unescape and becomes `,` on a second |
| `PyStr.Split` | src/plugins/chat/cq_code.py:56-58 | `split(',')` never returns an empty list, so the `if not parts` branch is dead; no part holds `,`; joining the parts with `,` gives the input |
| `PyStr.SplitOnce` | src/plugins/chat/cq_code.py:67 | `part.split('=', 1)` gives a key free of `=` and a value with `key + '=' + value == part` |
| `PyStr.IntToString` | src/plugins/chat/cq_code.py:438 | `str(message_id)` holds only digits and a minus sign, so it needs no escaping, and its decimal value is `message_id`, so distinct ids give distinct texts |
| `PyStr.NatToString` | src/plugins/chat/cq_code.py:438 | the digits of a natural number, at least one, reading back as that number |
| `CQCodes.Parse` | src/plugins/chat/cq_code.py:50-70 | a tag's type holds no `,` and its parameter keys hold no `=`; `ParseUntagged`, `ParseKind`, `ParamsOfKeys` and `ParamsOfLastWins` give the rest |
| `CQCodes.ParamsOf` | src/plugins/chat/cq_code.py:64-70 | no key holds `=`; `ParamsOfKeys` and `ParamsOfLastWins` say which keys are present and which value each keeps |
| `CQCodes.FromRecord` | src/plugins/chat/cq_code.py:410-415 | a record without a type gives a text code, and a text code has the single key `text`; `FromRecordShape` and `FromRecordRoundTrip` give the rest |
| `CQCodes.ParseUntagged` | src/plugins/chat/cq_code.py:50-51 | input not starting with `[CQ:` gives type `text` with params exactly `{text: input}` |
| `CQCodes.ParseKind` | src/plugins/chat/cq_code.py:53-61 | the type is the text after `[CQ:` up to the first `,` of the interior (or its end); the bare `[CQ:` gives the empty type |
| `CQCodes.ParseIgnoresLastChar` | src/plugins/chat/cq_code.py:53-54 | the last character of a tag is dropped without being checked to be `]` |
| `CQCodes.ParamsOfKeys` | src/plugins/chat/cq_code.py:64-70 | a key is present exactly when some later segment with `=` names it before its first `=`; segments without `=` add nothing |
| `CQCodes.ParamsOfLastWins` | src/plugins/chat/cq_code.py:64-70 | a repeated key keeps the unescaped value of the last segment that sets it |
| `CQCodes.FromRecordShape` | src/plugins/chat/cq_code.py:410-415 | a text record keeps only its `text` key; a record of another type keeps its `data` (empty when absent) |
| `CQCodes.FromRecordRoundTrip` | src/plugins/chat/cq_code.py:410-415 | a code in the record path's shape comes back unchanged from the record path |
| `CQCodes.PlainTextBothWays` | src/plugins/chat/cq_code.py:410-415 | untagged text gives the same code through the string form and the record form, with or without a `type` |
| `EntryPoints.FromCqCode` | src/plugins/chat/cq_code.py:45-76 | the segment loop fills exactly the parameters `Parse` specifies; a tag is then translated, and untagged input returns at once with no translation |
| `EntryPoints.FromDict` | src/plugins/chat/cq_code.py:397-427 | the type defaults to `text`; text codes get exactly `{text: t}`, where `t` is the record's `data.text` or `""` when either is missing; other types take `data` unchanged, so the code is `FromRecord(rec)`; the code is then translated |
| `Translation.Translate` | src/plugins/chat/cq_code.py:78-102 | among the exceptions modelled, only an image (a failing description call), a reply or a mention (a failing `Message`) can raise; `DispatchFixedTexts` says that the `image`, `reply` and `forward` types give exactly `Picture`, `Reply` and `ForwardText`, and gives the fixed texts of the others |
| `Translation.Describe` | src/plugins/chat/cq_code.py:263-269 | it raises (`DescriptionFailed`: the `ValueError`, or any exception of the HTTP call) exactly when the description oracle gives no answer; otherwise the text starts with `[图片：` and ends with `]` |
| `Translation.Picture` | src/plugins/chat/cq_code.py:159-179 | among the exceptions modelled, it can raise only the description's failure, and only when there is a `url`; `PictureFallback` and `PictureDescribed` give the texts |
| `Translation.Reply` | src/plugins/chat/cq_code.py:345-366 | it raises only from `Message`, and only with a replied-to message whose sender id is truthy; there, a failing `Message` does make it raise, since nothing catches the exception; `ReplyWithoutSender` and `ReplyNamesSender` give the texts |
| `Translation.Nickname` | src/plugins/chat/cq_code.py:291-292 | the name is the non-empty `card`, the `nickname` or `未知用户`; `NicknameChoice` says which |
| `Translation.EntryBody` | src/plugins/chat/cq_code.py:298-331 | only a message with raw text and no nested forward is processed, so only such a message can fail; its body is then exactly the processed text of `Message(user_id, message_id, raw_message, group_id)`; `NestedForwardNotFollowed` and `EmptyMessageShown` give the placeholders |
| `Translation.ForwardText` | src/plugins/chat/cq_code.py:271-343 | the result is the placeholder `[转发消息]` or starts with `[转发消息:\n` and ends with `]`; `ForwardFallbacks`, `ForwardEmptyBundle` and `ForwardLayout` give the rest |
| `Translation.FormatEntry` | src/plugins/chat/cq_code.py:290-331 | the per-message branch of the loop (parts scan, empty text, processing) gives exactly `EntryBody` |
| `Translation.FormatBundle` | src/plugins/chat/cq_code.py:289-334 | the loop gives exactly `EntryLines`: every line in order, or nothing once a message fails |
| `Translation.ContainsForward` | src/plugins/chat/cq_code.py:298-304 | the scan over a message's parts reports exactly whether one has type `forward` |
| `Translation.EntryLines` | src/plugins/chat/cq_code.py:289-334 | one `nickname: body` line per forwarded message, in order, or nothing as soon as one message's processing fails |
| `Translation.TranslateForward` | src/plugins/chat/cq_code.py:271-343 | decoding and then `FormatBundle` give exactly `ForwardText`: header, lines joined by newlines, closing bracket, or the placeholder on any failure |
| `TranslationFacts.DispatchFixedTexts` | src/plugins/chat/cq_code.py:78-102 | `image` gives exactly `Picture`, `reply` exactly `Reply` and `forward` exactly `ForwardText`; `text` yields `params.text` or `""`; `face` yields `[表情]` whatever the id; `at` yields `@` and the nickname, or raises when that `Message` does; an unknown type `t` yields `[t]` |
| `TranslationFacts.PlainTextPassesThrough` | src/plugins/chat/cq_code.py:80-81 | the text code of untagged input translates to that input (on the record path; `from_cq_code` does not translate it) |
| `TranslationFacts.PictureFallback` | src/plugins/chat/cq_code.py:159-179 | `sub_type == "0"` takes the photo path and anything else the sticker path; without `url`, or when the download gives nothing or an empty string, the result is `[图片]` or `[表情包]` and the description service plays no part |
| `TranslationFacts.PictureDescribed` | src/plugins/chat/cq_code.py:163-177 | with a downloaded image, photo and sticker alike yield `[图片：description]`, or the `ValueError` when the description call fails |
| `TranslationFacts.ReplyWithoutSender` | src/plugins/chat/cq_code.py:350-366 | with no replied-to message or a falsy sender id the result is `[回复某人消息]` and no message is processed |
| `TranslationFacts.ReplyNamesSender` | src/plugins/chat/cq_code.py:353-363 | otherwise the phrase names the bot's nickname when the sender is the bot, else the sender's nickname, followed by the processed text |
| `TranslationFacts.ForwardFallbacks` | src/plugins/chat/cq_code.py:271-286 | missing `content`, undecodable content, or a failing message yields `[转发消息]` |
| `TranslationFacts.ForwardEmptyBundle` | src/plugins/chat/cq_code.py:336-339 | an empty bundle yields `[转发消息:\n]` |
| `TranslationFacts.ForwardLayout` | src/plugins/chat/cq_code.py:288-339 | a bundle whose messages all succeed yields its `nickname: body` lines, in input order, joined by newlines inside `[转发消息:\n` … `]` |
| `TranslationFacts.NestedForwardNotFollowed` | src/plugins/chat/cq_code.py:298-303 | a message with a `forward` part is shown as `[转发消息]` whatever the message processor would do: nesting is never followed |
| `TranslationFacts.EmptyMessageShown` | src/plugins/chat/cq_code.py:316-317 | a forwarded message with no nested forward and no raw text shows as `[空消息]`, whatever the message processor would do |
| `TranslationFacts.NicknameChoice` | src/plugins/chat/cq_code.py:291-292 | the line's name is a non-empty `card`, else `nickname` when present, else `未知用户` |
| `Builders.CreateReplyCq` | src/plugins/chat/cq_code.py:430-438 | the result starts with `[CQ:` and ends with `]`; `ReplyTagRoundTrip` gives what the parser reads back |
| `Builders.CreateEmojiCq` | src/plugins/chat/cq_code.py:377-393 | the result starts with `[CQ:` and ends with `]`; `EmojiTagRoundTrip` gives what the parser reads back |
| `Builders.ReplyTagRoundTrip` | src/plugins/chat/cq_code.py:430-438 | parsing `create_reply_cq(n)` gives type `reply` with params exactly `{id: str(n)}`, whose decimal value is `n` |
| `Builders.ReplyTagTranslation` | src/plugins/chat/cq_code.py:430-438 | a built reply tag translates like the replied-to message the caller attaches |
| `Builders.EmojiTagRoundTrip` | src/plugins/chat/cq_code.py:377-393 | parsing `create_emoji_cq(p)` gives type `image` with params exactly `{file: "file:///" + p, sub_type: "1"}`, even when `p` holds `,`, `[`, `]`, `&` or `=` |
| `Builders.EmojiTagTranslation` | src/plugins/chat/cq_code.py:386-393 | a built sticker tag has no `url`, so it translates to `[表情包]` without any download |
| `Builders.ForwardContentUnescapedTwice` | src/plugins/chat/cq_code.py:274-278 | forward content escaped once is unescaped by the parser and again before decoding, so the decoder receives `unescape(content)` |
| `ConstructorCall.Bind` | src/plugins/chat/cq_code.py:33-42 | a successful binding fills every required field and no keyword names a field already filled positionally |
| `ConstructorCall.AsWrittenConstructorCallFails` | src/plugins/chat/cq_code.py:51 | three positional arguments then `group_id=...` fill `group_id` twice: `TypeError` |
| `ConstructorCall.CorrectedConstructorCallBinds` | src/plugins/chat/cq_code.py:73 | the same call without the stray `cq_code` argument binds every required field |
| `ConstructorCall.RecordConstructorCallBinds` | src/plugins/chat/cq_code.py:417-423 | the keyword-only call of `cq_from_dict_to_class` binds every required field |

## Left out

- `get_img` (cq_code.py:104-157) is network I/O: TLS setup, HTTP, base64 and `html.unescape` of the URL. Only its result is modelled, as the `fetchImage` oracle.
- `Translation.Picture`: `fetchImage` is assumed never to raise, although the TLS and session setup of `get_img` (cq_code.py:111-117) is outside its `try` (:132). As written, `HTTPAdapter(max_retries=3, ssl_context=tls_ctx)` at :117 passes a keyword that requests' `HTTPAdapter` does not accept, so it raises `TypeError` for every image or sticker code with a `url`, and that exception leaves `translate`. The model does not represent it.
- The HTTP calls of `get_image_description` (cq_code.py:226-269) are modelled only by their outcome (`describeImage`); the `[图片：…]` wrapping is modelled, and the `ValueError` and any exception of `requests.post` (:256) are both `DescriptionFailed`.
- `get_emoji_description` (cq_code.py:181-224) is never called.
- `Message` and its `processed_plain_text` are not part of this model. They parse and translate nested messages, so the model has no recursion: the reply and forward paths take the processed text from `processMessage`. Two assumptions about `Message` follow:
  - `Message` keeps the `user_id` it is given. `translate_reply` compares `message_obj.user_id` with the bot id (:360); the model compares the sender id passed in.
  - One `processMessage` oracle serves both constructor calls, although they differ. The reply's `Message` (:354-359) gets no `plain_text`, while a forwarded entry's `Message` (:308-314, :322-328) gets `plain_text=raw_message`. The model's `MessageInput` does not record that difference.
- `global_config` and `llm_config` are not part of this model either; the bot's id and nickname are fields of `Env`.
- `ast.literal_eval` is replaced by `decodeForward`, which gives already-decoded entries with `user_id`, `message_id` and `group_id` defaulted to 0. Entries that are not dictionaries and a `message` field that is not a list are not modelled.
- `os.path.abspath` in `create_emoji_cq`: the path is taken as given.
- The dataclass fields `group_id`, `user_id`, `group_name`, `user_nickname` and `image_base64` are not fields of `CQCode` here. Every call in this file passes `group_id=0` and `user_id=0` explicitly and leaves the other three at their defaults. `translate_reply` reads `group_id` (:358); the model uses the constant `CodeGroupId` (0) there. `translated_plain_text` is the returned translation, not a field write.
- Parameter values are strings. The integer values a record's `data` can hold, and a `type` of `None`, are not modelled.
- `print` logging.
- `src/gui/reasoning_gui.py` (Tk UI, MongoDB, polling thread) has no standalone logic.
- `Translation.TranslateForward`: only failures of `decodeForward` and `processMessage` reach the catch-all `except Exception`. Other exceptions inside the loop, such as `.get` on a non-dictionary, are not modelled.

## Findings

| source | as written | input that shows it | evidently intended | confidence | as-written member | corrected member |
|---|---|---|---|---|---|---|
| src/plugins/chat/cq_code.py:51 | `cls('text', {...}, cq_code, group_id=0, user_id=0)` passes the tag as a third positional argument, which fills `group_id` (`raw_code` is commented out at :35), and then passes `group_id=0` too. The call raises `TypeError`, and so do those at :58 and :73, so `from_cq_code` never returns. | `from_cq_code("hello")` | build the `CQCode` from the type and parameters, with `group_id=0` | high; not executed | `ConstructorCall.AsWrittenConstructorCallFails` | `ConstructorCall.CorrectedConstructorCallBinds` |

The rest of the model (`EntryPoints.FromCqCode`) returns the intended code.
