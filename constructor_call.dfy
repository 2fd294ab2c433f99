/**
 * How Python binds the arguments of the `__init__` that `@dataclass` generates for
 * `CQCode`. The calls in `from_cq_code` pass the raw tag as a third positional
 * argument, which lands in `group_id`, and then pass `group_id=0` as well.
 */
module ConstructorCall {
  import opened Wrappers

  /** The parameters of the generated `__init__`, in declaration order (`raw_code` is commented out). */
  const CQCodeFields: seq<string> := [
    "type", "params", "group_id", "user_id", "group_name", "user_nickname",
    "translated_plain_text", "reply_message", "image_base64"]

  /** `type`, `params`, `group_id` and `user_id` have no default value. */
  const RequiredCount: nat := 4

  /** The `TypeError`s argument binding can raise. */
  datatype CallError =
    | TooManyPositional
    | UnexpectedKeyword(name: string)
    | MultipleValues(name: string)
    | MissingArgument

  /** Binds the keyword arguments, in order, after `bound` has been filled; gives the bound parameters. */
  function BindKeywords(fields: seq<string>, required: nat, bound: set<string>, keywords: seq<string>)
    : (r: Result<set<string>, CallError>)
    requires required <= |fields|
    ensures r.Success? ==> bound <= r.value && forall k :: k in keywords ==> k in r.value && k !in bound
    ensures r.Success? ==> forall i :: 0 <= i < required ==> fields[i] in r.value
    ensures r.Failure? && r.error.MultipleValues? ==> r.error.name in keywords
    decreases |keywords|
  {
    if keywords == [] then
      if forall i :: 0 <= i < required ==> fields[i] in bound then Success(bound) else Failure(MissingArgument)
    else
      var k := keywords[0];
      if k !in fields then Failure(UnexpectedKeyword(k))
      else if k in bound then Failure(MultipleValues(k))
      else
        var r := BindKeywords(fields, required, bound + {k}, keywords[1..]);
        assert forall k' :: k' in keywords ==> k' == k || k' in keywords[1..];
        r
  }

  /** Binds `positional` positional arguments, then the keywords. */
  function Bind(fields: seq<string>, required: nat, positional: nat, keywords: seq<string>)
    : (r: Result<set<string>, CallError>)
    requires required <= |fields|
    ensures r.Success? ==> positional <= |fields|
    ensures r.Success? ==> forall i :: 0 <= i < positional ==> fields[i] !in keywords
    ensures r.Success? ==> forall i :: 0 <= i < required ==> fields[i] in r.value
  {
    if positional > |fields| then Failure(TooManyPositional)
    else
      var filled := set f | f in fields[..positional];
      var r := BindKeywords(fields, required, filled, keywords);
      assert forall i :: 0 <= i < positional ==> fields[..positional][i] in filled;
      r
  }

  /**
   * As written, `cls('text', {...}, cq_code, group_id=0, user_id=0)` (and the same
   * call with `reply_message=reply`) fills `group_id` twice and raises.
   */
  lemma AsWrittenConstructorCallFails(keywords: seq<string>)
    requires |keywords| > 0 && keywords[0] == "group_id"
    ensures Bind(CQCodeFields, RequiredCount, 3, keywords) == Failure(MultipleValues("group_id"))
  {
    var filled := set i | 0 <= i < 3 :: CQCodeFields[i];
    assert CQCodeFields[2] == "group_id";
    assert "group_id" in filled;
  }

  /** Distinct keywords that name unbound parameters and supply every missing required one bind. */
  lemma {:induction false} FreshKeywordsBind(fields: seq<string>, required: nat, bound: set<string>, keywords: seq<string>)
    requires required <= |fields|
    requires forall j :: 0 <= j < |keywords| ==> keywords[j] in fields && keywords[j] !in bound
    requires forall j, j' :: 0 <= j < j' < |keywords| ==> keywords[j] != keywords[j']
    requires forall i :: 0 <= i < required ==> fields[i] in bound || fields[i] in keywords
    ensures BindKeywords(fields, required, bound, keywords).Success?
    decreases |keywords|
  {
    if keywords != [] {
      var k := keywords[0];
      forall i | 0 <= i < required
        ensures fields[i] in bound + {k} || fields[i] in keywords[1..]
      {
        if fields[i] in keywords && fields[i] != k {
          var j :| 0 <= j < |keywords| && keywords[j] == fields[i];
          assert keywords[1..][j - 1] == fields[i];
        }
      }
      FreshKeywordsBind(fields, required, bound + {k}, keywords[1..]);
    }
  }

  /** Without the stray positional argument the call of `from_cq_code` binds every required parameter. */
  lemma CorrectedConstructorCallBinds()
    ensures Bind(CQCodeFields, RequiredCount, 2, ["group_id", "user_id", "reply_message"]).Success?
  {
    var fields := CQCodeFields;
    assert fields[0] == "type" && fields[1] == "params" && fields[2] == "group_id";
    assert fields[3] == "user_id" && fields[7] == "reply_message";
    assert fields[..2] == ["type", "params"];
    var filled := set f | f in fields[..2];
    assert filled == {"type", "params"};
    FreshKeywordsBind(fields, RequiredCount, filled, ["group_id", "user_id", "reply_message"]);
  }

  /** The keyword-only call of `cq_from_dict_to_class` binds every required parameter. */
  lemma RecordConstructorCallBinds()
    ensures Bind(CQCodeFields, RequiredCount, 0, ["type", "params", "group_id", "user_id", "reply_message"]).Success?
  {
    var fields := CQCodeFields;
    assert fields[0] == "type" && fields[1] == "params" && fields[2] == "group_id";
    assert fields[3] == "user_id" && fields[7] == "reply_message";
    assert fields[..0] == [];
    assert (set f | f in fields[..0]) == {};
    FreshKeywordsBind(fields, RequiredCount, {}, ["type", "params", "group_id", "user_id", "reply_message"]);
  }
}
