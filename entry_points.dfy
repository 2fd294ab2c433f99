/**
 * The two entry points that build a code: `CQCode.from_cq_code` for the string form,
 * which translates only tags, and `CQCode_tool.cq_from_dict_to_class` for the record
 * form, which translates every code.
 */
module EntryPoints {
  import opened Wrappers
  import opened PyStr
  import opened Escaping
  import opened CQCodes
  import opened Translation

  /**
   * `CQCode.from_cq_code`: input that is not a tag is returned as a text code at
   * once, without translation (`translated_plain_text` keeps its default `None`).
   * A tag is parsed, filling the parameter dictionary one segment at a time, and
   * then translated.
   */
  method FromCqCode(s: string, reply: Option<ReplyContext>, env: Env)
    returns (code: CQCode, translated: Option<Result<string, Raised>>)
    ensures code == Parse(s)
    ensures !StartsWith(s, TagPrefix) ==> translated.None?
    ensures StartsWith(s, TagPrefix) ==> translated == Some(Translate(code, reply, env))
  {
    if !StartsWith(s, TagPrefix) {
      code := PlainText(s);
      translated := None;
    } else {
      var content := Inner(s);
      // `str.split` never yields an empty list, so the source's `if not parts` fallback cannot run
      var parts := Split(content, ',');
      var kind := Drop(parts[0], 3);
      var params: map<string, string> := map[];
      var i := 1;
      while i < |parts|
        invariant 1 <= i <= |parts|
        invariant params == ParamsOf(parts[1..i])
      {
        var part := parts[i];
        assert parts[1..i + 1] == parts[1..i] + [part];
        assert parts[1..i + 1][..i - 1] == parts[1..i];
        if '=' in part {
          var (key, value) := SplitOnce(part, '=');
          params := params[key := Unescape(value)];
        }
        i := i + 1;
      }
      assert parts[1..i] == parts[1..];
      code := CQCode(kind, params);
      translated := Some(Translate(code, reply, env));
    }
  }

  /** `CQCode_tool.cq_from_dict_to_class`: builds the code from a record, then translates it. */
  method FromDict(rec: Record, reply: Option<ReplyContext>, env: Env)
    returns (code: CQCode, translated: Result<string, Raised>)
    ensures code.kind == (if rec.kind.Some? then rec.kind.value else "text")
    ensures code.kind == "text" ==>
      code.params == map["text" := if rec.data.Some? && "text" in rec.data.value then rec.data.value["text"] else ""]
    ensures code.kind != "text" ==> code.params == (if rec.data.Some? then rec.data.value else map[])
    ensures code == FromRecord(rec)
    ensures translated == Translate(code, reply, env)
  {
    var kind := if rec.kind.Some? then rec.kind.value else "text";
    var params: map<string, string> := map[];
    if kind == "text" {
      var data := if rec.data.Some? then rec.data.value else map[];
      params := params["text" := Get(data, "text", "")];
    } else {
      params := if rec.data.Some? then rec.data.value else map[];
    }
    code := CQCode(kind, params);
    translated := Translate(code, reply, env);
  }
}
