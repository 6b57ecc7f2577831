/**
 * Struct validation (pkg/validate/validator.go). The rule engine itself is
 * a library; what this repository adds is the translation of the list of
 * violations it reports into one human-readable message, and the
 * once-only installation of the global validator.
 */
module Validation {
  import opened Wrappers

  /**
   * One violation as the rule engine reports it: the failed rule's tag,
   * the field's name (the struct field's `label` tag, registered by
   * `NewValidator`), the rule's parameter and the offending value, the
   * last two already formatted with `%v`.
   */
  datatype Violation = Violation(tag: string, field: string, param: string, value: string)

  /** The message template of one violation. */
  function TagMessage(v: Violation): (m: string)
    ensures |m| > |v.field| && m[..|v.field|] == v.field
  {
    var f := v.field;
    if v.tag == "required" then f + "为必填项"
    else if v.tag == "min" then f + "的长度不应小于" + v.param
    else if v.tag == "max" then f + "的长度不应超过" + v.param
    else if v.tag == "ne" then f + "的值不应为" + v.value
    else if v.tag == "len" then f + "的长度必须为" + v.param
    else if v.tag == "eq" then f + "的值必须为" + v.param
    else if v.tag == "oneof" then f + "的值必须在[" + v.param + "]其中"
    else if v.tag == "gt" then f + "的值必须大于" + v.param
    else if v.tag == "gte" then f + "的值必须大于或等于" + v.param
    else if v.tag == "lt" then f + "的值必须小于" + v.param
    else if v.tag == "lte" then f + "的值必须小于或等于" + v.param
    else if v.tag == "eqfield" then f + "的值必须与" + v.param + "的值相等"
    else if v.tag == "numeric" then f + "的值必须为数字"
    else if v.tag == "email" then f + "的值必须符合邮箱格式"
    else if v.tag == "url" then f + "的值必须符合网址格式"
    else if v.tag == "ip" then f + "的内容必须符合IP格式"
    else if v.tag == "contains" then f + "的值必须包含" + v.param
    else if v.tag == "excludes" then f + "的值不可包含" + v.param
    else if v.tag == "containsany" then f + "的值必须包含[" + v.param + "]其中任意一个"
    else if v.tag == "excludesall" then f + "的值不可包含[" + v.param + "]其中任意一个"
    else if v.tag == "startswith" then f + "的值必须以[" + v.param + "]为开头"
    else if v.tag == "endswith" then f + "的值必须以[" + v.param + "]为结尾"
    else f + "的值未通过校验"
  }

  /** The tags that have a template of their own; every other tag gets the generic one. */
  const KnownTags: set<string> := {
    "required", "min", "max", "ne", "len", "eq", "oneof", "gt", "gte", "lt", "lte", "eqfield",
    "numeric", "email", "url", "ip", "contains", "excludes", "containsany", "excludesall",
    "startswith", "endswith"
  }

  lemma RequiredMinUrlTemplates(field: string, param: string, value: string)
    ensures TagMessage(Violation("required", field, param, value)) == field + "为必填项"
    ensures TagMessage(Violation("min", field, param, value)) == field + "的长度不应小于" + param
    ensures TagMessage(Violation("url", field, param, value)) == field + "的值必须符合网址格式"
  {
  }

  /** The `ne` template shows the offending value, not the parameter. */
  lemma NeShowsValue(field: string, param: string, value: string)
    ensures TagMessage(Violation("ne", field, param, value)) == field + "的值不应为" + value
  {
  }

  /** A tag without a template of its own gets the generic message. */
  lemma UnknownTagTemplate(v: Violation)
    requires v.tag !in KnownTags
    ensures TagMessage(v) == v.field + "的值未通过校验"
  {
  }

  /**
   * The message for a list of violations: "" when there are none,
   * otherwise the template of the last one.
   */
  function Report(violations: seq<Violation>): (r: string)
    ensures r == "" <==> violations == []
  {
    if violations == [] then "" else TagMessage(violations[|violations| - 1])
  }

  /**
   * `TheValidator.Work` once the engine has produced `violations`: nothing
   * to report gives ("", nil); otherwise each violation overwrites the
   * message in turn, and the error is non-nil.
   */
  method Work(violations: seq<Violation>) returns (message: string, failed: bool)
    ensures failed <==> violations != []
    ensures message == Report(violations)
  {
    message := "";
    if violations == [] {
      return "", false;
    }
    for i := 0 to |violations|
      invariant i == 0 ==> message == ""
      invariant i > 0 ==> message == TagMessage(violations[i - 1])
    {
      message := TagMessage(violations[i]);
    }
    failed := true;
  }

  /** Violations listed before the last one never reach the message. */
  lemma LastViolationWins(earlier: seq<Violation>, last: Violation)
    ensures Report(earlier + [last]) == TagMessage(last)
    ensures Report(earlier + [last]) == Report([last])
  {
  }

  /** A failed validation always carries a non-empty message that starts with the field name. */
  lemma ReportNamesField(violations: seq<Violation>)
    requires violations != []
    ensures var v := violations[|violations| - 1];
      |Report(violations)| > |v.field| && Report(violations)[..|v.field|] == v.field
  {
  }

  /**
   * The package-level validator (`validate`) and its `sync.Once`. A
   * validator is identified by the serial number of its creation.
   */
  class Registry {
    var validate: Option<nat>
    var onceDone: bool
    var created: nat

    constructor ()
      ensures validate == None && !onceDone && created == 0
    {
      validate, onceDone, created := None, false, 0;
    }

    /** `SetValidate`: installs `v` (which may be nil). */
    method SetValidate(v: Option<nat>)
      modifies this`validate
      ensures validate == v
    {
      validate := v;
    }

    /** `GetValidate`: the installed validator, nil if none. */
    function GetValidate(): (v: Option<nat>)
      reads this
      ensures v == validate
    {
      validate
    }

    /**
     * `InitValidate`: the first call creates a validator and installs it;
     * every later call re-installs whatever is installed, failing only if
     * that is nil (possible only after `SetValidate(nil)`).
     */
    method InitValidate() returns (err: Option<string>)
      modifies this
      ensures onceDone && created == (if old(onceDone) then old(created) else old(created) + 1)
      ensures !old(onceDone) ==> err == None && validate == Some(old(created))
      ensures old(onceDone) ==> validate == old(validate)
      ensures old(onceDone) ==> (err == None <==> old(validate).Some?)
      ensures err.Some? ==> err == Some("初始化失败")
    {
      var c := validate;
      if !onceDone {
        onceDone := true;
        c := Some(created);
        created := created + 1;
      }
      if c.None? {
        return Some("初始化失败");
      }
      SetValidate(c);
      err := None;
    }
  }

  /** Whatever `SetValidate` installs is what `GetValidate` then returns. */
  method SetThenGet(r: Registry, v: Option<nat>) returns (got: Option<nat>)
    modifies r
    ensures got == v
  {
    r.SetValidate(v);
    got := r.GetValidate();
  }

  /** Two initialisations in a row both succeed and leave the first call's validator installed. */
  method InitValidateTwice(r: Registry) returns (first: Option<string>, second: Option<string>)
    requires !r.onceDone
    modifies r
    ensures first == None && second == None
    ensures r.validate == Some(old(r.created)) && r.created == old(r.created) + 1
  {
    first := r.InitValidate();
    second := r.InitValidate();
  }
}
