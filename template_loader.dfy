/**
 * The template catalog: `loadTemplates` validates every record of the catalog and keeps the valid
 * ones; the lookups filter, search and deduplicate that valid list. The catalog is a parameter.
 */
module TemplateLoader {
  import opened Wrappers
  import opened Json
  import opened TemplateValidator
  import opened TemplateValidatorProperties
  import Seqs

  /** One entry of `loadTemplates().errors`. */
  datatype LoadError = LoadError(templateId: Json, errors: seq<ValidationError>)

  /** What `loadTemplates` returns. */
  datatype Loaded = Loaded(templates: seq<Json>, errors: seq<LoadError>)

  /** `template.id || 'unknown'`: the id when it is truthy, the string "unknown" otherwise. */
  function TemplateId(t: Json): (id: Json)
    ensures Truthy(Get(t, "id")) ==> id == Get(t, "id").value
    ensures !Truthy(Get(t, "id")) ==> id == JString("unknown")
  {
    var id := Get(t, "id");
    if Truthy(id) then id.value else JString("unknown")
  }

  /** `invalid.map(...)`: one error entry per invalid record, in order. */
  function ToLoadErrors(invalid: seq<InvalidTemplate>): (r: seq<LoadError>)
    ensures |r| == |invalid|
    ensures forall k :: 0 <= k < |r| ==> r[k] == LoadError(TemplateId(invalid[k].template), invalid[k].errors)
  {
    if invalid == [] then [] else [LoadError(TemplateId(invalid[0].template), invalid[0].errors)] + ToLoadErrors(invalid[1..])
  }

  /** Some record of the catalog throws inside `validateTemplate`. */
  predicate CatalogThrows(catalog: seq<Json>) {
    exists i :: 0 <= i < |catalog| && Throws(catalog[i])
  }

  /**
   * `loadTemplates`: the valid records, in catalog order, and one error entry per invalid record,
   * in catalog order, keyed by its id (or "unknown") and carrying its non-empty errors. It throws
   * when a record does.
   */
  function LoadTemplates(catalog: seq<Json>): (r: Result<Loaded, Thrown>)
    ensures r.Failure? <==> CatalogThrows(catalog)
    ensures r.Success? ==> r.value.templates == Seqs.Filter(catalog, IsValidTemplate)
    ensures r.Success? ==>
      var bad := Seqs.Filter(catalog, IsInvalidTemplate);
      && |r.value.errors| == |bad|
      && forall k :: 0 <= k < |bad| ==>
           && r.value.errors[k].templateId == TemplateId(bad[k])
           && r.value.errors[k].errors != []
           && Validate(bad[k]) == Success(ValidationResult(false, r.value.errors[k].errors))
  {
    ValidateAllThrows(catalog);
    match ValidateAll(catalog)
    case Failure(e) => Failure(e)
    case Success(p) =>
      ValidateAllValid(catalog);
      ValidateAllInvalid(catalog);
      ValidateAllInvalidErrors(catalog);
      Success(Loaded(p.valid, ToLoadErrors(p.invalid)))
  }

  /** `t[key] === value` for a string `value`. */
  predicate HasField(t: Json, key: string, value: string) {
    Get(t, key) == Some(JString(value))
  }

  /** `t => t[key] === value`. */
  function FieldIs(key: string, value: string): Json -> bool {
    t => HasField(t, key, value)
  }

  /** A valid record whose `key` is `value`. */
  function ValidWithField(key: string, value: string): Json -> bool {
    t => IsValidTemplate(t) && HasField(t, key, value)
  }

  /**
   * `getTemplatesByCategory`: exactly the valid records of category `category`, in catalog order.
   */
  function TemplatesByCategory(catalog: seq<Json>, category: string): (r: Result<seq<Json>, Thrown>)
    ensures r.Failure? <==> CatalogThrows(catalog)
    ensures r.Success? ==> r.value == Seqs.Filter(catalog, ValidWithField("owaspCategory", category))
    ensures r.Success? ==> forall t :: t in r.value ==> IsValidTemplate(t)
  {
    match LoadTemplates(catalog)
    case Failure(e) => Failure(e)
    case Success(loaded) =>
      Seqs.FilterFilter(catalog, IsValidTemplate, FieldIs("owaspCategory", category), ValidWithField("owaspCategory", category));
      Success(Seqs.Filter(loaded.templates, FieldIs("owaspCategory", category)))
  }

  /** `templates.find(t => t[key] === value)`. */
  function FindByField(templates: seq<Json>, key: string, value: string): Option<Json> {
    match Seqs.FindIndex(templates, FieldIs(key, value))
    case None => None
    case Some(k) => Some(templates[k])
  }

  /** `t` is the first valid record of the catalog whose `key` is `value`. */
  predicate IsFirstValidMatch(catalog: seq<Json>, key: string, value: string, t: Json) {
    exists i :: 0 <= i < |catalog| && catalog[i] == t && IsValidTemplate(t) && HasField(t, key, value)
      && forall j :: 0 <= j < i ==> !(IsValidTemplate(catalog[j]) && HasField(catalog[j], key, value))
  }

  /** No valid record of the catalog has `value` as its `key`. */
  predicate NoValidMatch(catalog: seq<Json>, key: string, value: string) {
    forall i :: 0 <= i < |catalog| ==> !(IsValidTemplate(catalog[i]) && HasField(catalog[i], key, value))
  }

  /** A search of the loaded list finds the first valid match in the catalog, or reports that there is none. */
  lemma FindByFieldInCatalog(catalog: seq<Json>, key: string, value: string)
    requires !CatalogThrows(catalog)
    ensures var r := FindByField(LoadTemplates(catalog).value.templates, key, value);
      && (r.None? <==> NoValidMatch(catalog, key, value))
      && (r.Some? ==> IsFirstValidMatch(catalog, key, value, r.value))
  {
    var pq := ValidWithField(key, value);
    Seqs.FindIndexFilter(catalog, IsValidTemplate, FieldIs(key, value), pq);
    var k := Seqs.FindIndex(catalog, pq);
    if k.Some? {
      assert catalog[k.value] == FindByField(LoadTemplates(catalog).value.templates, key, value).value;
    }
  }

  /**
   * `loadTemplates().templates.find(t => t[key] === value)`: the first valid record whose `key` is
   * `value`, or nothing when there is none; it throws when loading does.
   */
  function TemplateLookup(catalog: seq<Json>, key: string, value: string): (r: Result<Option<Json>, Thrown>)
    ensures r.Failure? <==> CatalogThrows(catalog)
    ensures r.Success? ==> (r.value.None? <==> NoValidMatch(catalog, key, value))
    ensures r.Success? && r.value.Some? ==> IsFirstValidMatch(catalog, key, value, r.value.value)
  {
    match LoadTemplates(catalog)
    case Failure(e) => Failure(e)
    case Success(loaded) =>
      FindByFieldInCatalog(catalog, key, value);
      Success(FindByField(loaded.templates, key, value))
  }

  /** `getTemplateById`: the lookup on `id`. */
  function TemplateById(catalog: seq<Json>, id: string): Result<Option<Json>, Thrown> {
    TemplateLookup(catalog, "id", id)
  }

  /** `getTemplateByType`: the lookup on `type`. */
  function TemplateByType(catalog: seq<Json>, typ: string): Result<Option<Json>, Thrown> {
    TemplateLookup(catalog, "type", typ)
  }

  /** `t.owaspCategory` of a valid record, which is a non-empty string. */
  function OwaspCategoryOf(t: Json): string {
    match Get(t, "owaspCategory")
    case Some(JString(s)) => s
    case _ => ""
  }

  /** A valid record's category is its `owaspCategory` string. */
  lemma ValidCategory(t: Json, c: string)
    requires IsValidTemplate(t)
    ensures OwaspCategoryOf(t) == c <==> HasField(t, "owaspCategory", c)
  {
    ValidIffMeetsSchema(t);
    assert IsNonEmptyString(Get(t, OwaspCategory.Key()));
  }

  /** `templates.map(t => t.owaspCategory)`. */
  function Categories(templates: seq<Json>): (r: seq<string>)
    ensures |r| == |templates|
    ensures forall k :: 0 <= k < |r| ==> r[k] == OwaspCategoryOf(templates[k])
  {
    if templates == [] then [] else [OwaspCategoryOf(templates[0])] + Categories(templates[1..])
  }

  /**
   * `getUniqueOwaspCategories`: no category twice, and a category is listed exactly when some
   * valid record of the catalog has it.
   */
  function UniqueOwaspCategories(catalog: seq<Json>): (r: Result<seq<string>, Thrown>)
    ensures r.Failure? <==> CatalogThrows(catalog)
    ensures r.Success? ==> Seqs.NoDup(r.value)
    ensures r.Success? ==> forall c :: c in r.value <==>
      exists t :: t in catalog && IsValidTemplate(t) && HasField(t, "owaspCategory", c)
  {
    match LoadTemplates(catalog)
    case Failure(e) => Failure(e)
    case Success(loaded) =>
      CategoriesMembers(loaded.templates);
      Success(Seqs.Dedup(Categories(loaded.templates)))
  }

  /** On valid records, the mapped categories are exactly the records' `owaspCategory` strings. */
  lemma CategoriesMembers(valid: seq<Json>)
    requires forall t :: t in valid ==> IsValidTemplate(t)
    ensures forall c :: c in Categories(valid) <==> exists t :: t in valid && HasField(t, "owaspCategory", c)
  {
    var cats := Categories(valid);
    forall c
      ensures c in cats <==> exists t :: t in valid && HasField(t, "owaspCategory", c)
    {
      if c in cats {
        var k :| 0 <= k < |cats| && cats[k] == c;
        ValidCategory(valid[k], c);
      }
      if exists t :: t in valid && HasField(t, "owaspCategory", c) {
        var t :| t in valid && HasField(t, "owaspCategory", c);
        var k :| 0 <= k < |valid| && valid[k] == t;
        ValidCategory(t, c);
        assert cats[k] == c;
      }
    }
  }

  /** Every record a lookup returns passes `validateTemplate`. */
  lemma LookupsReturnValidTemplates(catalog: seq<Json>, key: string, value: string)
    requires !CatalogThrows(catalog)
    ensures forall t :: t in LoadTemplates(catalog).value.templates ==> Validate(t).Success? && Validate(t).value.errors == []
    ensures var r := FindByField(LoadTemplates(catalog).value.templates, key, value);
      r.Some? ==> Validate(r.value).Success? && Validate(r.value).value.errors == []
  {
    FindByFieldInCatalog(catalog, key, value);
  }
}
