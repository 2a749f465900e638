/**
 * The vulnerability-template schema check: `validateTemplate` runs a fixed series of
 * independent field checks over an untyped record and reports one error per failed check;
 * `validateTemplates` splits a list of records into the valid ones and the invalid ones.
 */
module TemplateValidator {
  import opened Wrappers
  import opened Json
  import Seqs

  /** A top-level field that must hold a non-empty string, in the order the fields are checked. */
  datatype RequiredField = Id | OwaspCategory | Type | Name {
    /** The property name. */
    function Key(): string {
      match this
      case Id => "id"
      case OwaspCategory => "owaspCategory"
      case Type => "type"
      case Name => "name"
    }
  }

  /** A field every AWS service entry must hold a truthy value for, in the order the fields are checked. */
  datatype ServiceField = ServiceName | Description | UseCase {
    /** The property name. */
    function Key(): string {
      match this
      case ServiceName => "name"
      case Description => "description"
      case UseCase => "useCase"
    }
  }

  /**
   * Where an error is. `Render` gives the dotted text the source pushes as `field`:
   * `id`, `codePattern.fixPattern`, `educationalContent.awsServices[2].useCase`.
   */
  datatype FieldPath =
    | Required(field: RequiredField)
    | CodePattern
    | VulnerablePattern
    | FixPattern
    | EducationalContent
    | AwsServices
    | Service(index: nat, entry: ServiceField)
  {
    function Render(): string {
      match this
      case Required(f) => f.Key()
      case CodePattern => "codePattern"
      case VulnerablePattern => "codePattern.vulnerablePattern"
      case FixPattern => "codePattern.fixPattern"
      case EducationalContent => "educationalContent"
      case AwsServices => "educationalContent.awsServices"
      case Service(index, f) => ServicePrefix + NatToString(index) + "]." + f.Key()
    }
  }

  /**
   * One pushed error. Each kind determines the `field` and the `message` the source pushes, so the
   * record is kept as its kind; `Field` and `Message` give the two strings.
   */
  datatype ValidationError =
    | MissingString(field: RequiredField)
    | MissingCodePattern
    | MissingVulnerablePattern
    | MissingFixPattern
    | MissingEducationalContent
    | ServicesNotArray
    | ServicesEmpty
    | MissingServiceField(index: nat, entry: ServiceField)
  {
    /** Where the error is. */
    function Path(): FieldPath {
      match this
      case MissingString(f) => Required(f)
      case MissingCodePattern => CodePattern
      case MissingVulnerablePattern => VulnerablePattern
      case MissingFixPattern => FixPattern
      case MissingEducationalContent => EducationalContent
      case ServicesNotArray => AwsServices
      case ServicesEmpty => AwsServices
      case MissingServiceField(index, f) => Service(index, f)
    }

    /** The source's `field` property. */
    function Field(): string {
      Path().Render()
    }

    /** The source's `message` property. */
    function Message(): string {
      match this
      case MissingString(f) => f.Key() + " is required and must be a string"
      case MissingCodePattern => "codePattern is required and must be an object"
      case MissingVulnerablePattern => "vulnerablePattern is required"
      case MissingFixPattern => "fixPattern is required"
      case MissingEducationalContent => "educationalContent is required"
      case ServicesNotArray => "awsServices must be an array"
      case ServicesEmpty => "At least one AWS service is required"
      case MissingServiceField(_, f) => "AWS service " + f.Key() + " is required"
    }
  }

  datatype ValidationResult = ValidationResult(valid: bool, errors: seq<ValidationError>)

  /** An invalid record together with the errors it produced. */
  datatype InvalidTemplate = InvalidTemplate(template: Json, errors: seq<ValidationError>)

  datatype Partition = Partition(valid: seq<Json>, invalid: seq<InvalidTemplate>)

  // ---------------------------------------------------------------------------------------
  // Field paths and messages
  // ---------------------------------------------------------------------------------------

  /** Every per-service error path begins with this. */
  const ServicePrefix: string := "educationalContent.awsServices["

  /** The decimal digit of `d`. */
  function Digit(d: nat): (c: char)
    requires d < 10
    ensures '0' <= c <= '9'
  {
    ((48 + d) as char)
  }

  /** The decimal text of a natural number, as a template literal `${index}` renders it. */
  function NatToString(n: nat): (s: string)
    ensures |s| >= 1 && (n >= 10 ==> |s| >= 2)
    ensures forall k :: 0 <= k < |s| ==> '0' <= s[k] <= '9'
  {
    if n < 10 then [Digit(n)] else NatToString(n / 10) + [Digit(n % 10)]
  }

  /** Different numbers render differently. */
  lemma {:induction false} NatToStringInjective(a: nat, b: nat)
    requires NatToString(a) == NatToString(b)
    ensures a == b
  {
    if a >= 10 && b >= 10 {
      var sa, sb := NatToString(a), NatToString(b);
      assert sa[..|sa| - 1] == NatToString(a / 10);
      assert sb[..|sb| - 1] == NatToString(b / 10);
      NatToStringInjective(a / 10, b / 10);
      assert Digit(a % 10) == sa[|sa| - 1] == sb[|sb| - 1] == Digit(b % 10);
    }
  }

  /** The rendered path of a per-service error names one service index and one field. */
  lemma {:induction false} ServicePathInjective(i: nat, f: ServiceField, j: nat, g: ServiceField)
    requires Service(i, f).Render() == Service(j, g).Render()
    ensures i == j && f == g
  {
    var a, b := NatToString(i), NatToString(j);
    var x, y := a + "]." + f.Key(), b + "]." + g.Key();
    Seqs.AppendAssoc(ServicePrefix + a, "].", f.Key());
    Seqs.AppendAssoc(ServicePrefix, a, "]." + f.Key());
    Seqs.AppendAssoc(a, "].", f.Key());
    Seqs.AppendAssoc(ServicePrefix + b, "].", g.Key());
    Seqs.AppendAssoc(ServicePrefix, b, "]." + g.Key());
    Seqs.AppendAssoc(b, "].", g.Key());
    Seqs.AppendCancelLeft(ServicePrefix, x, y);
    DigitsBeforeBracket(a, f.Key(), b, g.Key());
    NatToStringInjective(i, j);
  }

  /** Two digit strings, each followed by `].` and a suffix, agree when the whole texts agree. */
  lemma DigitsBeforeBracket(a: string, k: string, b: string, l: string)
    requires forall n :: 0 <= n < |a| ==> '0' <= a[n] <= '9'
    requires forall n :: 0 <= n < |b| ==> '0' <= b[n] <= '9'
    requires a + "]." + k == b + "]." + l
    ensures a == b && k == l
  {
    var x := a + "]." + k;
    assert x[|a|] == ']' && x[|b|] == ']';
    assert forall n :: 0 <= n < |a| ==> x[n] == a[n];
    assert forall n :: 0 <= n < |b| ==> x[n] == b[n];
    assert |a| == |b|;
    assert a == x[..|a|];
    assert b == x[..|b|];
    assert k == x[|a| + 2..];
    assert l == x[|b| + 2..];
  }

  /** Different paths render to different `field` strings. */
  lemma RenderInjective(p: FieldPath, q: FieldPath)
    requires p.Render() == q.Render()
    ensures p == q
  {
    if p.Service? && q.Service? {
      ServicePathInjective(p.index, p.entry, q.index, q.entry);
    }
  }

  /** What reading `template.id` of a null template raises. */
  const NullTemplateError := TypeError("Cannot read properties of null (reading 'id')")

  /** What reading `service.name` of a null service entry raises. */
  const NullServiceError := TypeError("Cannot read properties of null (reading 'name')")

  // ---------------------------------------------------------------------------------------
  // The checks, as functions
  // ---------------------------------------------------------------------------------------

  /** Passes `!x || typeof x !== 'string'` negated: present, truthy and a string. */
  predicate IsNonEmptyString(v: Option<Json>)
    ensures IsNonEmptyString(v) <==> v.Some? && v.value.JString? && v.value.s != ""
  {
    Truthy(v) && TypeofString(v)
  }

  /** Passes `!x || typeof x !== 'object'` negated: present, truthy and of type object. */
  predicate IsObjectLike(v: Option<Json>)
    ensures IsObjectLike(v) <==> v.Some? && (v.value.JArray? || v.value.JObject?)
  {
    Truthy(v) && TypeofObject(v)
  }

  /** The fields of the four string checks, in the order they run. */
  const RequiredFields: seq<RequiredField> := [Id, OwaspCategory, Type, Name]

  /** The fields checked on every service entry, in the order they are checked. */
  const ServiceFields: seq<ServiceField> := [ServiceName, Description, UseCase]

  /** The error of one string check. */
  function StringFieldErrors(t: Json, field: RequiredField): seq<ValidationError> {
    if IsNonEmptyString(Get(t, field.Key())) then [] else [MissingString(field)]
  }

  /** The errors of the string checks of `fields`, run in order. */
  function StringChecks(t: Json, fields: seq<RequiredField>): seq<ValidationError> {
    if fields == [] then [] else StringFieldErrors(t, fields[0]) + StringChecks(t, fields[1..])
  }

  /** The errors of the `id`, `owaspCategory`, `type` and `name` checks. */
  function RequiredFieldErrors(t: Json): seq<ValidationError> {
    StringChecks(t, RequiredFields)
  }

  /** The four string checks, one after the other. */
  lemma RequiredFieldErrorsUnfold(t: Json)
    ensures RequiredFieldErrors(t) == StringFieldErrors(t, Id) + StringFieldErrors(t, OwaspCategory)
      + StringFieldErrors(t, Type) + StringFieldErrors(t, Name)
  {
    var a, b, c, d := StringFieldErrors(t, Id), StringFieldErrors(t, OwaspCategory),
      StringFieldErrors(t, Type), StringFieldErrors(t, Name);
    assert [Name][1..] == [];
    assert StringChecks(t, [Name]) == d;
    assert [Type, Name][1..] == [Name];
    assert StringChecks(t, [Type, Name]) == c + d;
    assert [OwaspCategory, Type, Name][1..] == [Type, Name];
    assert StringChecks(t, [OwaspCategory, Type, Name]) == b + (c + d);
    assert RequiredFields[1..] == [OwaspCategory, Type, Name];
    assert StringChecks(t, RequiredFields) == a + (b + (c + d));
    Seqs.AppendAssoc(a, b, c + d);
    Seqs.AppendAssoc(a + b, c, d);
  }

  /** The errors of the `codePattern` check and of its two sub-field checks. */
  function CodePatternErrors(t: Json): seq<ValidationError> {
    var cp := Get(t, "codePattern");
    if !IsObjectLike(cp) then [MissingCodePattern]
    else
      (if Truthy(Get(cp.value, "vulnerablePattern")) then [] else [MissingVulnerablePattern])
      + (if Truthy(Get(cp.value, "fixPattern")) then [] else [MissingFixPattern])
  }

  /** The error of one field check of the service entry at `index`. */
  function ServiceFieldErrors(service: Json, index: nat, field: ServiceField): seq<ValidationError> {
    if Truthy(Get(service, field.Key())) then [] else [MissingServiceField(index, field)]
  }

  /** The errors of the field checks of `fields` on the service entry at `index`, run in order. */
  function ServiceFieldChecks(service: Json, index: nat, fields: seq<ServiceField>): seq<ValidationError> {
    if fields == [] then []
    else ServiceFieldErrors(service, index, fields[0]) + ServiceFieldChecks(service, index, fields[1..])
  }

  /** The errors one non-null service entry at `index` contributes: one per falsy field. */
  function ServiceEntryErrors(service: Json, index: nat): seq<ValidationError> {
    ServiceFieldChecks(service, index, ServiceFields)
  }

  /** The three field checks of a service entry, one after the other. */
  lemma ServiceEntryErrorsUnfold(service: Json, index: nat)
    ensures ServiceEntryErrors(service, index) == ServiceFieldErrors(service, index, ServiceName)
      + ServiceFieldErrors(service, index, Description) + ServiceFieldErrors(service, index, UseCase)
  {
    var a, b, c := ServiceFieldErrors(service, index, ServiceName),
      ServiceFieldErrors(service, index, Description), ServiceFieldErrors(service, index, UseCase);
    assert [UseCase][1..] == [];
    assert ServiceFieldChecks(service, index, [UseCase]) == c;
    assert [Description, UseCase][1..] == [UseCase];
    assert ServiceFieldChecks(service, index, [Description, UseCase]) == b + c;
    assert ServiceFields[1..] == [Description, UseCase];
    assert ServiceFieldChecks(service, index, ServiceFields) == a + (b + c);
    Seqs.AppendAssoc(a, b, c);
  }

  /**
   * The errors the `forEach` over `services` has pushed after visiting the first `n` entries,
   * or the TypeError of the first null entry among them.
   */
  function ServiceErrors(services: seq<Json>, n: nat): Result<seq<ValidationError>, Thrown>
    requires n <= |services|
  {
    if n == 0 then Success([])
    else match ServiceErrors(services, n - 1)
      case Failure(e) => Failure(e)
      case Success(errs) =>
        if services[n - 1].JNull? then Failure(NullServiceError)
        else Success(errs + ServiceEntryErrors(services[n - 1], n - 1))
  }

  /** `educationalContent` is an object-like value whose `awsServices` is a non-empty array. */
  predicate HasServiceList(t: Json) {
    var ec := Get(t, "educationalContent");
    IsObjectLike(ec) && IsArray(Get(ec.value, "awsServices"))
      && |Get(ec.value, "awsServices").value.items| > 0
  }

  /** The service entries of a template that has a service list. */
  function Services(t: Json): seq<Json>
    requires HasServiceList(t)
  {
    Get(Get(t, "educationalContent").value, "awsServices").value.items
  }

  /** The errors of the `educationalContent` and `awsServices` checks. */
  function EducationErrors(t: Json): Result<seq<ValidationError>, Thrown> {
    var ec := Get(t, "educationalContent");
    if !IsObjectLike(ec) then Success([MissingEducationalContent])
    else
      var services := Get(ec.value, "awsServices");
      if !IsArray(services) then Success([ServicesNotArray])
      else if |services.value.items| == 0 then Success([ServicesEmpty])
      else ServiceErrors(services.value.items, |services.value.items|)
  }

  /** All errors of one template in the order they are pushed, or the TypeError it raises. */
  function TemplateErrors(t: Json): Result<seq<ValidationError>, Thrown> {
    if t.JNull? then Failure(NullTemplateError)
    else match EducationErrors(t)
      case Failure(e) => Failure(e)
      case Success(edu) => Success(RequiredFieldErrors(t) + CodePatternErrors(t) + edu)
  }

  /** The template reads a property of null: it is null, or one of its service entries is. */
  predicate Throws(t: Json) {
    t.JNull? || (HasServiceList(t) && exists i :: 0 <= i < |Services(t)| && Services(t)[i].JNull?)
  }

  /** The service part throws exactly when one of the visited entries is null. */
  lemma {:induction false} ServiceErrorsThrow(services: seq<Json>, n: nat)
    requires n <= |services|
    ensures ServiceErrors(services, n).Failure? <==> exists i :: 0 <= i < n && services[i].JNull?
    ensures ServiceErrors(services, n).Failure? ==> ServiceErrors(services, n).error == NullServiceError
  {
    if n > 0 {
      ServiceErrorsThrow(services, n - 1);
    }
  }

  /** A template throws exactly when it is null or one of its service entries is null. */
  lemma TemplateErrorsThrow(t: Json)
    ensures TemplateErrors(t).Failure? <==> Throws(t)
  {
    if HasServiceList(t) {
      ServiceErrorsThrow(Services(t), |Services(t)|);
    }
  }

  /**
   * `validateTemplate`, as a function: the result is valid exactly when no error was pushed,
   * it throws exactly when a property of null is read, and a template that does not throw is
   * not null.
   */
  function Validate(t: Json): (r: Result<ValidationResult, Thrown>)
    ensures r.Failure? <==> Throws(t)
    ensures r.Success? ==> !t.JNull? && (r.value.valid <==> r.value.errors == [])
  {
    TemplateErrorsThrow(t);
    match TemplateErrors(t)
    case Failure(e) => Failure(e)
    case Success(errs) => Success(ValidationResult(|errs| == 0, errs))
  }

  /** The template validates without throwing and without errors. */
  predicate IsValidTemplate(t: Json) {
    Validate(t).Success? && Validate(t).value.valid
  }

  // ---------------------------------------------------------------------------------------
  // validateTemplate and validateTemplates, as the source writes them
  // ---------------------------------------------------------------------------------------

  /**
   * `validateTemplate`: pushes one error per failed check. The three groups of checks (required
   * strings, code pattern, educational content) are the methods below, run in the source's order.
   */
  method ValidateTemplate(template: Json) returns (r: Result<ValidationResult, Thrown>)
    ensures r == Validate(template)
  {
    if template.JNull? {
      return Failure(NullTemplateError);
    }
    var errors := CheckRequiredFields(template);
    var patternErrors := CheckCodePattern(template);
    errors := errors + patternErrors;
    var educationErrors := CheckEducation(template);
    if educationErrors.Failure? {
      return Failure(educationErrors.error);
    }
    errors := errors + educationErrors.value;
    return Success(ValidationResult(|errors| == 0, errors));
  }

  /** The `id`, `owaspCategory`, `type` and `name` checks. */
  method CheckRequiredFields(template: Json) returns (errors: seq<ValidationError>)
    ensures errors == RequiredFieldErrors(template)
  {
    RequiredFieldErrorsUnfold(template);
    errors := [];
    if !IsNonEmptyString(Get(template, "id")) {
      errors := errors + [MissingString(Id)];
    }
    if !IsNonEmptyString(Get(template, "owaspCategory")) {
      errors := errors + [MissingString(OwaspCategory)];
    }
    if !IsNonEmptyString(Get(template, "type")) {
      errors := errors + [MissingString(Type)];
    }
    if !IsNonEmptyString(Get(template, "name")) {
      errors := errors + [MissingString(Name)];
    }
  }

  /** The `codePattern` check and, when it passes, the checks of its two sub-fields. */
  method CheckCodePattern(template: Json) returns (errors: seq<ValidationError>)
    ensures errors == CodePatternErrors(template)
  {
    errors := [];
    var codePattern := Get(template, "codePattern");
    if !IsObjectLike(codePattern) {
      errors := errors + [MissingCodePattern];
    } else {
      if !Truthy(Get(codePattern.value, "vulnerablePattern")) {
        errors := errors + [MissingVulnerablePattern];
      }
      if !Truthy(Get(codePattern.value, "fixPattern")) {
        errors := errors + [MissingFixPattern];
      }
    }
  }

  /** The `educationalContent` and `awsServices` checks, and the visit of every service entry. */
  method CheckEducation(template: Json) returns (r: Result<seq<ValidationError>, Thrown>)
    ensures r == EducationErrors(template)
  {
    var content := Get(template, "educationalContent");
    if !IsObjectLike(content) {
      return Success([MissingEducationalContent]);
    }
    var services := Get(content.value, "awsServices");
    if !IsArray(services) {
      return Success([ServicesNotArray]);
    } else if |services.value.items| == 0 {
      return Success([ServicesEmpty]);
    }
    r := CheckServices(services.value.items);
  }

  /** The `forEach` over the service entries: pushes one error per falsy field of each entry. */
  method CheckServices(items: seq<Json>) returns (r: Result<seq<ValidationError>, Thrown>)
    ensures r == ServiceErrors(items, |items|)
  {
    var errors: seq<ValidationError> := [];
    var i := 0;
    while i < |items|
      invariant 0 <= i <= |items|
      invariant ServiceErrors(items, i) == Success(errors)
    {
      var service := items[i];
      if service.JNull? {
        ServiceErrorsThrow(items, |items|);
        return Failure(NullServiceError);
      }
      ghost var start := errors;
      ghost var e1, e2, e3 := ServiceFieldErrors(service, i, ServiceName),
        ServiceFieldErrors(service, i, Description), ServiceFieldErrors(service, i, UseCase);
      if !Truthy(Get(service, "name")) {
        errors := errors + [MissingServiceField(i, ServiceName)];
      }
      assert errors == start + e1;
      if !Truthy(Get(service, "description")) {
        errors := errors + [MissingServiceField(i, Description)];
      }
      assert errors == (start + e1) + e2;
      if !Truthy(Get(service, "useCase")) {
        errors := errors + [MissingServiceField(i, UseCase)];
      }
      assert errors == ((start + e1) + e2) + e3;
      ServiceEntryErrorsUnfold(service, i);
      Seqs.AppendAssoc(start, e1, e2);
      Seqs.AppendAssoc(start, e1 + e2, e3);
      assert errors == start + ServiceEntryErrors(service, i);
      i := i + 1;
    }
    return Success(errors);
  }

  /** `validateTemplates` over the first `n` records, as a function: throws at the first record that throws. */
  function ValidateAll(templates: seq<Json>): Result<Partition, Thrown>
  {
    if templates == [] then Success(Partition([], []))
    else
      var init, t := templates[..|templates| - 1], templates[|templates| - 1];
      match ValidateAll(init)
      case Failure(e) => Failure(e)
      case Success(p) =>
        match Validate(t)
        case Failure(e) => Failure(e)
        case Success(res) =>
          if res.valid then Success(p.(valid := p.valid + [t]))
          else Success(p.(invalid := p.invalid + [InvalidTemplate(t, res.errors)]))
  }

  /** `validateTemplates`: one pass that pushes each record onto the valid or the invalid list. */
  method ValidateTemplates(templates: seq<Json>) returns (r: Result<Partition, Thrown>)
    ensures r == ValidateAll(templates)
  {
    var valid: seq<Json> := [];
    var invalid: seq<InvalidTemplate> := [];
    var i := 0;
    while i < |templates|
      invariant 0 <= i <= |templates|
      invariant ValidateAll(templates[..i]) == Success(Partition(valid, invalid))
    {
      assert templates[..i + 1][..i] == templates[..i];
      var result := ValidateTemplate(templates[i]);
      if result.Failure? {
        ValidateAllPrefixFails(templates, i + 1);
        return Failure(result.error);
      }
      if result.value.valid {
        valid := valid + [templates[i]];
      } else {
        invalid := invalid + [InvalidTemplate(templates[i], result.value.errors)];
      }
      i := i + 1;
    }
    assert templates[..i] == templates;
    return Success(Partition(valid, invalid));
  }

  /** Once a prefix throws, the whole list throws with the same exception. */
  lemma {:induction false} ValidateAllPrefixFails(templates: seq<Json>, n: nat)
    requires n <= |templates|
    requires ValidateAll(templates[..n]).Failure?
    ensures ValidateAll(templates) == ValidateAll(templates[..n])
    decreases |templates| - n
  {
    if n < |templates| {
      var next := templates[..n + 1];
      assert next[..|next| - 1] == templates[..n];
      ValidateAllPrefixFails(templates, n + 1);
    } else {
      assert templates[..n] == templates;
    }
  }
}
