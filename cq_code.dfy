/**
 * The parsed form of a CQ code and the two ways of obtaining it: from the flat
 * string form `[CQ:type,key=value,...]` and from a structured `{type, data}` record.
 */
module CQCodes {
  import opened Wrappers
  import opened PyStr
  import opened Escaping

  /** A CQ code's type and its parameter dictionary. */
  datatype CQCode = CQCode(kind: string, params: map<string, string>)

  const TagPrefix := "[CQ:"

  /** The code for input that is not a tag: type `text` holding the input verbatim. */
  function PlainText(s: string): CQCode
  {
    CQCode("text", map["text" := s])
  }

  /**
   * The parameters contributed by the segments after the type: a segment with `=`
   * sets the key before its first `=` to the unescaped rest, in order, so a later
   * segment overwrites an earlier one with the same key; a segment without `=` adds nothing.
   */
  function ParamsOf(segments: seq<string>): (params: map<string, string>)
    ensures forall k :: k in params ==> '=' !in k
  {
    if segments == [] then map[]
    else
      var params := ParamsOf(segments[..|segments| - 1]);
      var segment := segments[|segments| - 1];
      if '=' in segment then
        var (key, value) := SplitOnce(segment, '=');
        params[key := Unescape(value)]
      else params
  }

  /** The key a segment with `=` sets. */
  function KeyOf(segment: string): string
    requires '=' in segment
  {
    SplitOnce(segment, '=').0
  }

  /** The (still escaped) value a segment with `=` carries. */
  function ValueOf(segment: string): string
    requires '=' in segment
  {
    SplitOnce(segment, '=').1
  }

  /**
   * `CQCode.from_cq_code` without the translation step: input not starting with
   * `[CQ:` is text; otherwise the outer two characters are dropped, the rest split
   * on `,`, the type is the first segment minus its first three characters and the
   * other segments give the parameters.
   */
  function Parse(s: string): (code: CQCode)
    ensures StartsWith(s, TagPrefix) ==> ',' !in code.kind
    ensures StartsWith(s, TagPrefix) ==> forall k :: k in code.params ==> '=' !in k
  {
    if !StartsWith(s, TagPrefix) then PlainText(s)
    else
      var segments := Split(Inner(s), ',');
      var kind := Drop(segments[0], 3);
      assert forall i :: 0 <= i < |kind| ==> kind[i] == segments[0][i + 3];
      CQCode(kind, ParamsOf(segments[1..]))
  }

  /** A structured CQ code as the transport hands it over; absent fields are `None`. */
  datatype Record = Record(kind: Option<string>, data: Option<map<string, string>>)

  /**
   * `CQCode_tool.cq_from_dict_to_class` without the translation step: the type
   * defaults to `text`, a text code keeps only `data.text` (default empty), any
   * other type takes `data` as it is.
   */
  function FromRecord(rec: Record): (code: CQCode)
    ensures rec.kind.None? ==> code.kind == "text"
    ensures code.kind == "text" ==> code.params.Keys == {"text"}
  {
    var kind := if rec.kind.Some? then rec.kind.value else "text";
    var data := if rec.data.Some? then rec.data.value else map[];
    if kind == "text" then CQCode(kind, map["text" := Get(data, "text", "")])
    else CQCode(kind, data)
  }

  // ---------------------------------------------------------------------------
  // Properties of the parser

  /** Input that is not a tag becomes a text code whose only parameter is the input. */
  lemma ParseUntagged(s: string)
    requires !StartsWith(s, TagPrefix)
    ensures Parse(s).kind == "text" && Parse(s).params.Keys == {"text"} && Parse(s).params["text"] == s
  {
  }

  /**
   * The type of a tag is the text after `[CQ:` up to the first `,` of the interior
   * (or to the end of the interior when there is none); the bare `[CQ:` has the empty type.
   */
  lemma ParseKind(s: string)
    requires StartsWith(s, TagPrefix)
    ensures var k := Parse(s).kind; var inner := Inner(s);
      ',' !in k &&
      (|s| == |TagPrefix| ==> k == "") &&
      (|s| > |TagPrefix| ==>
        3 + |k| <= |inner| && inner[..3 + |k|] == "CQ:" + k &&
        (3 + |k| == |inner| || inner[3 + |k|] == ','))
  {
    var inner := Inner(s);
    var first := Split(inner, ',')[0];
    SplitFirst(inner, ',');
    if |s| > |TagPrefix| {
      assert inner[..3] == s[1..4] == "CQ:";
      assert first == first[..3] + first[3..];
      assert first[..3] == inner[..3];
    } else {
      assert |inner| == 2;
    }
  }

  /** The last character of a tag is dropped without being checked to be `]`. */
  lemma ParseIgnoresLastChar(s: string, c: char, d: char)
    requires StartsWith(s, TagPrefix)
    ensures Parse(s + [c]) == Parse(s + [d])
  {
    assert (s + [c])[..|TagPrefix|] == s[..|TagPrefix|];
    assert (s + [d])[..|TagPrefix|] == s[..|TagPrefix|];
    assert Inner(s + [c]) == s[1..] == Inner(s + [d]);
  }

  /**
   * A key is present exactly when some segment with `=` names it: segments without
   * `=` add nothing.
   */
  lemma {:induction false} ParamsOfKeySource(segments: seq<string>, k: string)
    requires k in ParamsOf(segments)
    ensures exists j :: 0 <= j < |segments| && '=' in segments[j] && KeyOf(segments[j]) == k
  {
    var init := segments[..|segments| - 1];
    var last := segments[|segments| - 1];
    if '=' in last && KeyOf(last) == k {
      assert segments[|segments| - 1] == last;
    } else {
      assert k in ParamsOf(init);
      ParamsOfKeySource(init, k);
      var j :| 0 <= j < |init| && '=' in init[j] && KeyOf(init[j]) == k;
      assert segments[j] == init[j];
    }
  }

  lemma {:induction false} ParamsOfKeyPresent(segments: seq<string>, j: nat)
    requires j < |segments| && '=' in segments[j]
    ensures KeyOf(segments[j]) in ParamsOf(segments)
  {
    var init := segments[..|segments| - 1];
    if j < |init| {
      assert init[j] == segments[j];
      ParamsOfKeyPresent(init, j);
    }
  }

  lemma ParamsOfKeys(segments: seq<string>, k: string)
    ensures k in ParamsOf(segments) <==>
      exists j :: 0 <= j < |segments| && '=' in segments[j] && KeyOf(segments[j]) == k
  {
    if k in ParamsOf(segments) {
      ParamsOfKeySource(segments, k);
    }
    if exists j :: 0 <= j < |segments| && '=' in segments[j] && KeyOf(segments[j]) == k {
      var j :| 0 <= j < |segments| && '=' in segments[j] && KeyOf(segments[j]) == k;
      ParamsOfKeyPresent(segments, j);
    }
  }

  /** A repeated key keeps the value of the last segment that sets it, unescaped. */
  lemma {:induction false} ParamsOfLastWins(segments: seq<string>, j: nat)
    requires j < |segments| && '=' in segments[j]
    requires forall j' :: j < j' < |segments| && '=' in segments[j'] ==> KeyOf(segments[j']) != KeyOf(segments[j])
    ensures KeyOf(segments[j]) in ParamsOf(segments)
    ensures ParamsOf(segments)[KeyOf(segments[j])] == Unescape(ValueOf(segments[j]))
  {
    var n := |segments|;
    if j < n - 1 {
      var init := segments[..n - 1];
      assert init[j] == segments[j];
      forall j' | j < j' < |init| && '=' in init[j']
        ensures KeyOf(init[j']) != KeyOf(init[j])
      {
        assert init[j'] == segments[j'];
      }
      ParamsOfLastWins(init, j);
    }
  }

  /** A text record keeps only its text; a record of any other type keeps its data. */
  lemma FromRecordShape(rec: Record)
    ensures var c := FromRecord(rec);
      (c.kind == "text" ==> c.params.Keys == {"text"}) &&
      (c.kind != "text" ==> c.params == (if rec.data.Some? then rec.data.value else map[]))
  {
  }

  /**
   * Both entry points produce the same shape: a code in the shape the record path
   * produces comes back unchanged from the record path.
   */
  lemma FromRecordRoundTrip(c: CQCode)
    requires c.kind == "text" ==> c.params.Keys == {"text"}
    ensures FromRecord(Record(Some(c.kind), Some(c.params))) == c
  {
    if c.kind == "text" {
      var m := map["text" := c.params["text"]];
      assert m.Keys == c.params.Keys;
      assert m == c.params;
    }
  }

  /** Plain text arrives identically through the string form and the record form. */
  lemma PlainTextBothWays(s: string)
    requires !StartsWith(s, TagPrefix)
    ensures FromRecord(Record(Some("text"), Some(map["text" := s]))) == Parse(s)
    ensures FromRecord(Record(None, Some(map["text" := s]))) == Parse(s)
  {
  }
}
