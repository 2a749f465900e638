/**
 * What `validateTemplate` and `validateTemplates` promise: one error per failed check, each under
 * its own field path; validity exactly when the record meets the schema; and a partition that keeps
 * the input order.
 */
module TemplateValidatorProperties {
  import opened Wrappers
  import opened Json
  import opened TemplateValidator
  import Seqs

  // ---------------------------------------------------------------------------------------
  // Counting errors
  // ---------------------------------------------------------------------------------------

  /** How many errors are reported at path `p`. */
  function PathCount(errors: seq<ValidationError>, p: FieldPath): nat {
    if errors == [] then 0
    else (if errors[0].Path() == p then 1 else 0) + PathCount(errors[1..], p)
  }

  /** How many errors carry the `field` string `f`, as the source's tests look them up. */
  function FieldCount(errors: seq<ValidationError>, f: string): nat {
    if errors == [] then 0
    else (if errors[0].Field() == f then 1 else 0) + FieldCount(errors[1..], f)
  }

  lemma {:induction false} PathCountAppend(a: seq<ValidationError>, b: seq<ValidationError>, p: FieldPath)
    ensures PathCount(a + b, p) == PathCount(a, p) + PathCount(b, p)
  {
    if a == [] {
      assert a + b == b;
    } else {
      assert (a + b)[1..] == a[1..] + b;
      PathCountAppend(a[1..], b, p);
    }
  }

  /** A path no error carries is counted zero times. */
  lemma {:induction false} PathCountAbsent(errors: seq<ValidationError>, p: FieldPath)
    requires forall k :: 0 <= k < |errors| ==> errors[k].Path() != p
    ensures PathCount(errors, p) == 0
  {
    if errors != [] {
      PathCountAbsent(errors[1..], p);
    }
  }

  /** Looking an error up by its `field` string is looking it up by path: paths render injectively. */
  lemma {:induction false} FieldCountIsPathCount(errors: seq<ValidationError>, p: FieldPath)
    ensures FieldCount(errors, p.Render()) == PathCount(errors, p)
  {
    if errors != [] {
      if errors[0].Field() == p.Render() {
        RenderInjective(errors[0].Path(), p);
      }
      FieldCountIsPathCount(errors[1..], p);
    }
  }

  // ---------------------------------------------------------------------------------------
  // The service entries
  // ---------------------------------------------------------------------------------------

  /** The checks of distinct `fields` report each falsy one once, under this entry's index. */
  lemma {:induction false} ServiceFieldChecksPathCount(service: Json, index: nat, fields: seq<ServiceField>, p: FieldPath)
    requires Seqs.NoDup(fields)
    ensures PathCount(ServiceFieldChecks(service, index, fields), p)
         == if p.Service? && p.index == index && p.entry in fields && !Truthy(Get(service, p.entry.Key())) then 1 else 0
  {
    if fields != [] {
      var head, rest := ServiceFieldErrors(service, index, fields[0]), ServiceFieldChecks(service, index, fields[1..]);
      PathCountAppend(head, rest, p);
      ServiceFieldChecksPathCount(service, index, fields[1..], p);
      if p.Service? && p.entry == fields[0] {
        assert p.entry !in fields[1..];
      }
      assert p.Service? && p.entry in fields ==> p.entry == fields[0] || p.entry in fields[1..];
    }
  }

  /** The string checks of distinct `fields` report each failing one once. */
  lemma {:induction false} StringChecksPathCount(t: Json, fields: seq<RequiredField>, p: FieldPath)
    requires Seqs.NoDup(fields)
    ensures PathCount(StringChecks(t, fields), p)
         == if p.Required? && p.field in fields && !IsNonEmptyString(Get(t, p.field.Key())) then 1 else 0
  {
    if fields != [] {
      PathCountAppend(StringFieldErrors(t, fields[0]), StringChecks(t, fields[1..]), p);
      StringChecksPathCount(t, fields[1..], p);
      if p.Required? && p.field == fields[0] {
        assert p.field !in fields[1..];
      }
      assert p.Required? && p.field in fields ==> p.field == fields[0] || p.field in fields[1..];
    }
  }

  /** A single entry reports each of its falsy fields once, under its own index. */
  lemma ServiceEntryPathCount(service: Json, index: nat, p: FieldPath)
    ensures PathCount(ServiceEntryErrors(service, index), p)
         == if p.Service? && p.index == index && !Truthy(Get(service, p.entry.Key())) then 1 else 0
  {
    var fs := ServiceFields;
    ServiceFieldChecksPathCount(service, index, fs, p);
  }

  /** The visit of the first `n` entries reports field `g` of entry `i` once exactly when it is falsy. */
  lemma {:induction false} ServiceErrorsPathCount(services: seq<Json>, n: nat, p: FieldPath)
    requires n <= |services| && ServiceErrors(services, n).Success?
    ensures PathCount(ServiceErrors(services, n).value, p)
         == if p.Service? && p.index < n && !Truthy(Get(services[p.index], p.entry.Key())) then 1 else 0
  {
    if n > 0 {
      ServiceErrorsPathCount(services, n - 1, p);
      var prev := ServiceErrors(services, n - 1).value;
      PathCountAppend(prev, ServiceEntryErrors(services[n - 1], n - 1), p);
      ServiceEntryPathCount(services[n - 1], n - 1, p);
    }
  }

  /** 1 when the check fails, 0 when it passes. */
  function Failed(check: bool): nat {
    if check then 0 else 1
  }

  /** The number of falsy `name`, `description` and `useCase` fields of one entry. */
  function FalsyServiceFields(service: Json): nat {
    Failed(Truthy(Get(service, "name"))) + Failed(Truthy(Get(service, "description")))
      + Failed(Truthy(Get(service, "useCase")))
  }

  /** One entry pushes one error per falsy field. */
  lemma ServiceEntryErrorsLength(service: Json, index: nat)
    ensures |ServiceEntryErrors(service, index)| == FalsyServiceFields(service)
  {
    ServiceEntryErrorsUnfold(service, index);
  }

  /** The number of falsy service fields over all entries. */
  function FalsyServiceFieldTotal(services: seq<Json>): nat {
    if services == [] then 0
    else FalsyServiceFieldTotal(services[..|services| - 1]) + FalsyServiceFields(services[|services| - 1])
  }

  /** The total is zero exactly when every field of every entry is truthy. */
  lemma {:induction false} FalsyServiceFieldTotalZero(services: seq<Json>)
    ensures FalsyServiceFieldTotal(services) == 0
        <==> forall i, g: ServiceField :: 0 <= i < |services| ==> Truthy(Get(services[i], g.Key()))
  {
    if services != [] {
      var init, last := services[..|services| - 1], services[|services| - 1];
      FalsyServiceFieldTotalZero(init);
      if FalsyServiceFieldTotal(services) == 0 {
        forall i, g: ServiceField | 0 <= i < |services|
          ensures Truthy(Get(services[i], g.Key()))
        {
          if i < |init| {
            assert services[i] == init[i];
          } else {
            assert services[i] == last;
          }
        }
      } else if FalsyServiceFields(last) > 0 {
        var g: ServiceField :| !Truthy(Get(last, g.Key()));
        assert services[|services| - 1] == last;
      } else {
        var i, g: ServiceField :| 0 <= i < |init| && !Truthy(Get(init[i], g.Key()));
        assert services[i] == init[i];
      }
    }
  }

  /** The service visit pushes one error per falsy field. */
  lemma {:induction false} ServiceErrorsLength(services: seq<Json>, n: nat)
    requires n <= |services| && ServiceErrors(services, n).Success?
    ensures |ServiceErrors(services, n).value| == FalsyServiceFieldTotal(services[..n])
  {
    if n > 0 {
      ServiceErrorsLength(services, n - 1);
      ServiceEntryErrorsLength(services[n - 1], n - 1);
      assert services[..n][..n - 1] == services[..n - 1];
    }
  }

  // ---------------------------------------------------------------------------------------
  // One error per failed check
  // ---------------------------------------------------------------------------------------

  /**
   * How many errors the schema gives path `p` of template `t`, check by check: one for each
   * required string that is not a non-empty string; one for a `codePattern` that is not
   * object-like, and then none for its sub-fields, else one for each falsy sub-field; one for an
   * `educationalContent` that is not object-like; one for its `awsServices` when it is
   * object-like and the services are not a non-empty array; and one for each falsy field of each
   * service entry.
   */
  function ExpectedCount(t: Json, p: FieldPath): nat {
    var cp, ec := Get(t, "codePattern"), Get(t, "educationalContent");
    match p
    case Required(f) => Failed(IsNonEmptyString(Get(t, f.Key())))
    case CodePattern => Failed(IsObjectLike(cp))
    case VulnerablePattern => if IsObjectLike(cp) then Failed(Truthy(Get(cp.value, "vulnerablePattern"))) else 0
    case FixPattern => if IsObjectLike(cp) then Failed(Truthy(Get(cp.value, "fixPattern"))) else 0
    case EducationalContent => Failed(IsObjectLike(ec))
    case AwsServices => if IsObjectLike(ec) then Failed(HasServiceList(t)) else 0
    case Service(i, g) =>
      if HasServiceList(t) && i < |Services(t)| then Failed(Truthy(Get(Services(t)[i], g.Key()))) else 0
  }

  /** The error list of a template that does not throw. */
  function Errors(t: Json): seq<ValidationError>
    requires Validate(t).Success?
  {
    Validate(t).value.errors
  }

  /** The three groups of checks the error list is made of, in order. */
  lemma ErrorsParts(t: Json)
    requires Validate(t).Success?
    ensures EducationErrors(t).Success?
    ensures Errors(t) == RequiredFieldErrors(t) + CodePatternErrors(t) + EducationErrors(t).value
  {
  }

  /** The string checks report the required fields, as the schema counts them, and nothing else. */
  lemma RequiredPathCount(t: Json, p: FieldPath)
    ensures PathCount(RequiredFieldErrors(t), p) == if p.Required? then ExpectedCount(t, p) else 0
  {
    var fs := RequiredFields;
    StringChecksPathCount(t, fs, p);
    assert p.Required? ==> p.field in fs;
  }

  /** The code-pattern checks report `codePattern` and its sub-fields, and nothing else. */
  lemma CodePatternPathCount(t: Json, p: FieldPath)
    ensures PathCount(CodePatternErrors(t), p)
         == if p.CodePattern? || p.VulnerablePattern? || p.FixPattern? then ExpectedCount(t, p) else 0
  {
    var v := Get(t, "codePattern");
    if IsObjectLike(v) {
      var a := if Truthy(Get(v.value, "vulnerablePattern")) then [] else [MissingVulnerablePattern];
      var b := if Truthy(Get(v.value, "fixPattern")) then [] else [MissingFixPattern];
      PathCountAppend(a, b, p);
    }
  }

  /** The educational-content checks report it, its service list and the service entries, and nothing else. */
  lemma EducationPathCount(t: Json, p: FieldPath)
    requires EducationErrors(t).Success?
    ensures PathCount(EducationErrors(t).value, p)
         == if p.EducationalContent? || p.AwsServices? || p.Service? then ExpectedCount(t, p) else 0
  {
    if HasServiceList(t) {
      ServiceErrorsPathCount(Services(t), |Services(t)|, p);
    }
  }

  /**
   * The checks are independent: every path gets exactly as many errors as the schema counts for
   * it, whether it is looked up by path or by its rendered `field` string.
   */
  lemma ErrorsPerPath(t: Json, p: FieldPath)
    requires Validate(t).Success?
    ensures PathCount(Errors(t), p) == ExpectedCount(t, p)
    ensures FieldCount(Errors(t), p.Render()) == ExpectedCount(t, p)
  {
    ErrorsParts(t);
    var req, cp, edu := RequiredFieldErrors(t), CodePatternErrors(t), EducationErrors(t).value;
    PathCountAppend(req + cp, edu, p);
    PathCountAppend(req, cp, p);
    RequiredPathCount(t, p);
    CodePatternPathCount(t, p);
    EducationPathCount(t, p);
    FieldCountIsPathCount(Errors(t), p);
  }

  /** The number of failed string checks. */
  function FailedStringChecks(t: Json): nat {
    Failed(IsNonEmptyString(Get(t, "id"))) + Failed(IsNonEmptyString(Get(t, "owaspCategory")))
    + Failed(IsNonEmptyString(Get(t, "type"))) + Failed(IsNonEmptyString(Get(t, "name")))
  }

  /** The number of failed code-pattern checks. */
  function FailedCodePatternChecks(t: Json): nat {
    var cp := Get(t, "codePattern");
    if !IsObjectLike(cp) then 1
    else Failed(Truthy(Get(cp.value, "vulnerablePattern"))) + Failed(Truthy(Get(cp.value, "fixPattern")))
  }

  /** The number of failed educational-content checks, service fields included. */
  function FailedEducationChecks(t: Json): nat {
    if HasServiceList(t) then FalsyServiceFieldTotal(Services(t)) else 1
  }

  /** The number of failed checks. */
  function FailedChecks(t: Json): nat {
    FailedStringChecks(t) + FailedCodePatternChecks(t) + FailedEducationChecks(t)
  }

  lemma RequiredFieldErrorsLength(t: Json)
    ensures |RequiredFieldErrors(t)| == FailedStringChecks(t)
  {
    RequiredFieldErrorsUnfold(t);
  }

  lemma EducationErrorsLength(t: Json)
    requires EducationErrors(t).Success?
    ensures |EducationErrors(t).value| == FailedEducationChecks(t)
  {
    if HasServiceList(t) {
      var s := Services(t);
      ServiceErrorsLength(s, |s|);
      assert s[..|s|] == s;
    }
  }

  /** The error count is the number of failed checks. */
  lemma ErrorCountIsFailedChecks(t: Json)
    requires Validate(t).Success?
    ensures |Errors(t)| == FailedChecks(t)
  {
    ErrorsParts(t);
    RequiredFieldErrorsLength(t);
    EducationErrorsLength(t);
  }

  /** A missing `id` together with an empty `awsServices` yields two errors with distinct fields. */
  lemma MissingIdAndNoServices(t: Json)
    requires !t.JNull? && !IsNonEmptyString(Get(t, "id"))
    requires IsObjectLike(Get(t, "educationalContent"))
    requires Get(Get(t, "educationalContent").value, "awsServices") == Some(JArray([]))
    ensures Validate(t).Success? && !Validate(t).value.valid
    ensures |Errors(t)| >= 2
    ensures FieldCount(Errors(t), "id") == 1
    ensures FieldCount(Errors(t), "educationalContent.awsServices") == 1
  {
    assert !Throws(t);
    ErrorsPerPath(t, Required(Id));
    ErrorsPerPath(t, AwsServices);
    ErrorCountIsFailedChecks(t);
  }

  // ---------------------------------------------------------------------------------------
  // Validity is the schema
  // ---------------------------------------------------------------------------------------

  /**
   * The template schema, stated field by field: four non-empty strings, an object-like
   * `codePattern` with truthy `vulnerablePattern` and `fixPattern`, an object-like
   * `educationalContent` whose `awsServices` is a non-empty array of non-null entries that each
   * have a truthy `name`, `description` and `useCase`.
   */
  predicate MeetsSchema(t: Json) {
    var cp := Get(t, "codePattern");
    && !t.JNull?
    && (forall f: RequiredField :: IsNonEmptyString(Get(t, f.Key())))
    && IsObjectLike(cp) && Truthy(Get(cp.value, "vulnerablePattern")) && Truthy(Get(cp.value, "fixPattern"))
    && HasServiceList(t)
    && (forall i :: 0 <= i < |Services(t)| ==> !Services(t)[i].JNull?)
    && (forall i, g: ServiceField :: 0 <= i < |Services(t)| ==> Truthy(Get(Services(t)[i], g.Key())))
  }

  /** `validateTemplate` accepts a record exactly when it meets the schema. */
  lemma ValidIffMeetsSchema(t: Json)
    ensures IsValidTemplate(t) <==> MeetsSchema(t)
  {
    if Validate(t).Success? {
      ErrorCountIsFailedChecks(t);
      if HasServiceList(t) {
        FalsyServiceFieldTotalZero(Services(t));
      }
      if MeetsSchema(t) {
        assert IsNonEmptyString(Get(t, Id.Key()));
        assert IsNonEmptyString(Get(t, OwaspCategory.Key()));
        assert IsNonEmptyString(Get(t, Type.Key()));
        assert IsNonEmptyString(Get(t, Name.Key()));
      }
    }
  }

  // ---------------------------------------------------------------------------------------
  // validateTemplates partitions its input
  // ---------------------------------------------------------------------------------------

  /** The records of the invalid list, in order. */
  function InvalidRecords(invalid: seq<InvalidTemplate>): (r: seq<Json>)
    ensures |r| == |invalid|
    ensures forall k :: 0 <= k < |invalid| ==> r[k] == invalid[k].template
  {
    if invalid == [] then [] else [invalid[0].template] + InvalidRecords(invalid[1..])
  }

  predicate IsInvalidTemplate(t: Json) {
    !IsValidTemplate(t)
  }

  /** `validateTemplates` throws exactly when one of the records throws. */
  lemma {:induction false} ValidateAllThrows(templates: seq<Json>)
    ensures ValidateAll(templates).Failure? <==> exists i :: 0 <= i < |templates| && Throws(templates[i])
  {
    if templates != [] {
      var init := templates[..|templates| - 1];
      ValidateAllThrows(init);
      if exists i :: 0 <= i < |init| && Throws(init[i]) {
        var i :| 0 <= i < |init| && Throws(init[i]);
        assert templates[i] == init[i];
      }
      if exists i :: 0 <= i < |templates| && Throws(templates[i]) {
        var i :| 0 <= i < |templates| && Throws(templates[i]);
        if i < |init| {
          assert templates[i] == init[i];
        }
      }
    }
  }

  /** One more record goes onto the list its validation result names. */
  lemma ValidateAllStep(templates: seq<Json>)
    requires templates != [] && ValidateAll(templates).Success?
    ensures var init, t := templates[..|templates| - 1], templates[|templates| - 1];
      && ValidateAll(init).Success? && Validate(t).Success?
      && ValidateAll(templates).value == if IsValidTemplate(t)
           then ValidateAll(init).value.(valid := ValidateAll(init).value.valid + [t])
           else ValidateAll(init).value.(invalid := ValidateAll(init).value.invalid + [InvalidTemplate(t, Validate(t).value.errors)])
  {
  }

  /** When no record throws, the valid list is exactly the valid records, in input order. */
  lemma {:induction false} ValidateAllValid(templates: seq<Json>)
    requires ValidateAll(templates).Success?
    ensures ValidateAll(templates).value.valid == Seqs.Filter(templates, IsValidTemplate)
  {
    if templates != [] {
      var init, t := templates[..|templates| - 1], templates[|templates| - 1];
      assert templates == init + [t];
      ValidateAllStep(templates);
      ValidateAllValid(init);
      Seqs.FilterAppend(init, [t], IsValidTemplate);
      assert Seqs.Filter([t], IsValidTemplate) == if IsValidTemplate(t) then [t] else [];
    }
  }

  /** When no record throws, the invalid list holds exactly the invalid records, in input order. */
  lemma {:induction false} ValidateAllInvalid(templates: seq<Json>)
    requires ValidateAll(templates).Success?
    ensures InvalidRecords(ValidateAll(templates).value.invalid) == Seqs.Filter(templates, IsInvalidTemplate)
  {
    if templates != [] {
      var init, t := templates[..|templates| - 1], templates[|templates| - 1];
      assert templates == init + [t];
      ValidateAllStep(templates);
      ValidateAllInvalid(init);
      Seqs.FilterAppend(init, [t], IsInvalidTemplate);
      assert Seqs.Filter([t], IsInvalidTemplate) == if IsInvalidTemplate(t) then [t] else [];
      var q := ValidateAll(init).value;
      InvalidRecordsAppend(q.invalid, [InvalidTemplate(t, Validate(t).value.errors)]);
    }
  }

  /** Each entry of the invalid list carries the non-empty errors `validateTemplate` gave its record. */
  lemma {:induction false} ValidateAllInvalidErrors(templates: seq<Json>)
    requires ValidateAll(templates).Success?
    ensures var inv := ValidateAll(templates).value.invalid;
      forall k :: 0 <= k < |inv| ==>
        inv[k].errors != [] && Validate(inv[k].template) == Success(ValidationResult(false, inv[k].errors))
  {
    if templates != [] {
      ValidateAllInvalidErrors(templates[..|templates| - 1]);
    }
  }

  /** When no record throws, every record lands in exactly one of the two lists. */
  lemma {:induction false} ValidateAllSizes(templates: seq<Json>)
    requires ValidateAll(templates).Success?
    ensures |ValidateAll(templates).value.valid| + |ValidateAll(templates).value.invalid| == |templates|
  {
    if templates != [] {
      ValidateAllSizes(templates[..|templates| - 1]);
    }
  }

  lemma {:induction false} InvalidRecordsAppend(a: seq<InvalidTemplate>, b: seq<InvalidTemplate>)
    ensures InvalidRecords(a + b) == InvalidRecords(a) + InvalidRecords(b)
  {
    if a == [] {
      assert a + b == b;
    } else {
      assert (a + b)[1..] == a[1..] + b;
      InvalidRecordsAppend(a[1..], b);
    }
  }
}
