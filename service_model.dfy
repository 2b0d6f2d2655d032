/** The Service schema: required fields, enumerations, the minimum price and the
    defaults Mongoose fills in when a service document is created. */
module ServiceModel {
  import opened Wrappers
  import Text

  datatype Category = Plumbing | Electrical | Carpentry | Cleaning | Painting

  datatype PricingModel = Fixed | Hourly | PerUnit | Custom

  /** A stored service. `professionalTypes` and `matchingProfessionals` are read and
      written by the matching controller but are not declared by the schema. */
  datatype Service = Service(
    name: string,
    category: Category,
    description: Option<string>,
    basePrice: real,
    pricingModel: PricingModel,
    isActive: bool,
    professionalTypes: seq<string>,
    matchingProfessionals: seq<string>)

  function CategoryName(c: Category): string {
    match c
    case Plumbing => "plumbing"
    case Electrical => "electrical"
    case Carpentry => "carpentry"
    case Cleaning => "cleaning"
    case Painting => "painting"
  }

  /** The `enum` check on `category`: exactly the five names are accepted. */
  function ParseCategory(s: string): (r: Option<Category>)
    ensures r.Some? ==> CategoryName(r.value) == s
    ensures r.None? ==> forall c :: CategoryName(c) != s
  {
    if s == "plumbing" then Some(Plumbing)
    else if s == "electrical" then Some(Electrical)
    else if s == "carpentry" then Some(Carpentry)
    else if s == "cleaning" then Some(Cleaning)
    else if s == "painting" then Some(Painting)
    else None
  }

  function PricingModelName(m: PricingModel): string {
    match m
    case Fixed => "fixed"
    case Hourly => "hourly"
    case PerUnit => "per_unit"
    case Custom => "custom"
  }

  /** The `enum` check on `pricing.pricingModel`. */
  function ParsePricingModel(s: string): (r: Option<PricingModel>)
    ensures r.Some? ==> PricingModelName(r.value) == s
    ensures r.None? ==> forall m :: PricingModelName(m) != s
  {
    if s == "fixed" then Some(Fixed)
    else if s == "hourly" then Some(Hourly)
    else if s == "per_unit" then Some(PerUnit)
    else if s == "custom" then Some(Custom)
    else None
  }

  /** The fields of a create request; an absent field is `None`. */
  datatype ServiceInput = ServiceInput(
    name: Option<string>,
    category: Option<string>,
    description: Option<string>,
    basePrice: Option<real>,
    pricingModel: Option<string>,
    isActive: Option<bool>)

  /** The schema paths a validation error can name. */
  datatype Path = NamePath | CategoryPath | BasePricePath | PricingModelPath

  /** What the schema guarantees of every stored service. */
  predicate WellFormed(s: Service) {
    && s.name != ""
    && Text.Trim(s.name) == s.name
    && (s.description.Some? ==> Text.Trim(s.description.value) == s.description.value)
    && s.basePrice >= 0.0
  }

  const AllPaths: set<Path> := {NamePath, CategoryPath, BasePricePath, PricingModelPath}

  /** Whether the schema rejects the input at one path. The `trim` setter runs before
      `required`, so a name of white space only is missing. */
  predicate Fails(input: ServiceInput, p: Path) {
    match p
    case NamePath => input.name.None? || Text.Trim(input.name.value) == ""
    case CategoryPath => input.category.None? || ParseCategory(input.category.value).None?
    case BasePricePath => input.basePrice.None? || input.basePrice.value < 0.0
    case PricingModelPath => input.pricingModel.Some? && ParsePricingModel(input.pricingModel.value).None?
  }

  /** Every path that fails validation (Mongoose reports them all at once). */
  function SchemaErrors(input: ServiceInput): (errs: set<Path>)
    ensures NamePath in errs <==> input.name.None? || Text.Trim(input.name.value) == ""
    ensures CategoryPath in errs <==> input.category.None? || ParseCategory(input.category.value).None?
    ensures BasePricePath in errs <==> input.basePrice.None? || input.basePrice.value < 0.0
    ensures PricingModelPath in errs <==> input.pricingModel.Some? && ParsePricingModel(input.pricingModel.value).None?
  {
    set p | p in AllPaths && Fails(input, p)
  }

  datatype Created = Saved(service: Service) | Invalid(errors: set<Path>)

  /** `new Service(input).save()`: a valid input is stored trimmed and with the
      defaults `pricingModel = fixed` and `isActive = true`; an invalid one is refused
      with every failing path. */
  function CreateService(input: ServiceInput): (r: Created)
    ensures r.Saved? <==> SchemaErrors(input) == {}
    ensures r.Invalid? ==> r.errors == SchemaErrors(input) && r.errors != {}
    ensures r.Saved? ==> && WellFormed(r.service)
                         && r.service.name == Text.Trim(input.name.value)
                         && r.service.description == (if input.description.Some? then Some(Text.Trim(input.description.value)) else None)
                         && CategoryName(r.service.category) == input.category.value
                         && r.service.basePrice == input.basePrice.value
                         && (input.pricingModel.None? ==> r.service.pricingModel == Fixed)
                         && (input.pricingModel.Some? ==> PricingModelName(r.service.pricingModel) == input.pricingModel.value)
                         && r.service.isActive == input.isActive.GetOr(true)
  {
    var errs := SchemaErrors(input);
    if errs != {} then Invalid(errs)
    else
      var desc := if input.description.Some? then Some(Text.Trim(input.description.value)) else None;
      Text.TrimIdempotent(input.name.value);
      TrimIdempotentIfPresent(input.description);
      Saved(Service(
        Text.Trim(input.name.value),
        ParseCategory(input.category.value).value,
        desc,
        input.basePrice.value,
        if input.pricingModel.Some? then ParsePricingModel(input.pricingModel.value).value else Fixed,
        input.isActive.GetOr(true),
        [], []))
  }

  lemma TrimIdempotentIfPresent(s: Option<string>)
    ensures s.Some? ==> Text.Trim(Text.Trim(s.value)) == Text.Trim(s.value)
  {
    if s.Some? { Text.TrimIdempotent(s.value); }
  }
}
