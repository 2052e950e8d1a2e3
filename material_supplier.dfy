/**
 * The six-step material-supplier registration wizard: its record, its rule
 * table, and the component state (`currentStep`, `formData`, `errors`) with
 * the handlers that update it.
 */
module MaterialSupplier {
  import opened Wrappers
  import opened Text
  import opened Forms
  import opened FieldRules
  import Lists

  /** The keys of `formData`, which are also the keys of `errors`. */
  datatype Field =
    | FullName | NicNumber | MobileNumber | Email | Password | ConfirmPassword
    | District | CityTown | Address
    | MaterialTypes | BusinessBrandName | Description
    | PriceRangeMin | PriceRangeMax | DeliveryIncluded | AvailabilitySchedule
    | MaterialImages | NicBusinessLicense
    | AgreeToTerms

  /** `formData`. */
  datatype Form = Form(
    fullName: string, nicNumber: string, mobileNumber: string,
    email: string, password: string, confirmPassword: string,
    district: string, cityTown: string, address: string,
    materialTypes: seq<string>, businessBrandName: string, description: string,
    priceRangeMin: string, priceRangeMax: string, deliveryIncluded: bool,
    availabilitySchedule: string,
    materialImages: seq<FileToken>, nicBusinessLicense: Option<FileToken>,
    agreeToTerms: bool)

  type ErrorMap = map<Field, string>

  /** The record the component starts with. */
  const InitialForm := Form(
    "", "", "", "", "", "",
    "", "", "",
    [], "", "",
    "", "", true, "",
    [], None,
    false)

  /** The record the wizard hands to its `onSubmit` callback. */
  datatype Submission = Submission(form: Form, role: string, kind: string)

  const Role := "material_supplier"

  /** The value held under a field name. */
  function Get(f: Form, n: Field): FieldValue {
    match n
    case FullName => TextValue(f.fullName)
    case NicNumber => TextValue(f.nicNumber)
    case MobileNumber => TextValue(f.mobileNumber)
    case Email => TextValue(f.email)
    case Password => TextValue(f.password)
    case ConfirmPassword => TextValue(f.confirmPassword)
    case District => TextValue(f.district)
    case CityTown => TextValue(f.cityTown)
    case Address => TextValue(f.address)
    case MaterialTypes => Choices(f.materialTypes)
    case BusinessBrandName => TextValue(f.businessBrandName)
    case Description => TextValue(f.description)
    case PriceRangeMin => TextValue(f.priceRangeMin)
    case PriceRangeMax => TextValue(f.priceRangeMax)
    case DeliveryIncluded => Flag(f.deliveryIncluded)
    case AvailabilitySchedule => TextValue(f.availabilitySchedule)
    case MaterialImages => Images(f.materialImages)
    case NicBusinessLicense => Attachment(f.nicBusinessLicense)
    case AgreeToTerms => Flag(f.agreeToTerms)
  }

  /** The step whose page shows the field's input. */
  function StepOf(n: Field): (k: int)
    ensures 1 <= k <= 6
  {
    match n
    case FullName | NicNumber | MobileNumber | Email | Password | ConfirmPassword => 1
    case District | CityTown | Address => 2
    case MaterialTypes | BusinessBrandName | Description => 3
    case PriceRangeMin | PriceRangeMax | DeliveryIncluded | AvailabilitySchedule => 4
    case MaterialImages | NicBusinessLicense => 5
    case AgreeToTerms => 6
  }

  /** The fields each step's page shows. */
  function StepFields(step: int): set<Field> {
    match step
    case 1 => {FullName, NicNumber, MobileNumber, Email, Password, ConfirmPassword}
    case 2 => {District, CityTown, Address}
    case 3 => {MaterialTypes, BusinessBrandName, Description}
    case 4 => {PriceRangeMin, PriceRangeMax, DeliveryIncluded, AvailabilitySchedule}
    case 5 => {MaterialImages, NicBusinessLicense}
    case 6 => {AgreeToTerms}
    case _ => {}
  }

  /** A field belongs to exactly the step StepOf names. */
  lemma InStepFieldsIffStepOf(n: Field, step: int)
    ensures n in StepFields(step) <==> StepOf(n) == step
  {
  }

  /** Fields edited through text inputs, text areas or selects. */
  predicate IsTextField(n: Field) {
    Get(InitialForm, n).TextValue?
  }

  /** `setFormData(prev => ({ ...prev, [name]: value }))` for a text field. */
  function WithText(f: Form, n: Field, v: string): (r: Form)
    requires IsTextField(n)
    ensures Get(r, n) == TextValue(v)
    ensures forall m :: m != n ==> Get(r, m) == Get(f, m)
  {
    match n
    case FullName => f.(fullName := v)
    case NicNumber => f.(nicNumber := v)
    case MobileNumber => f.(mobileNumber := v)
    case Email => f.(email := v)
    case Password => f.(password := v)
    case ConfirmPassword => f.(confirmPassword := v)
    case District => f.(district := v)
    case CityTown => f.(cityTown := v)
    case Address => f.(address := v)
    case BusinessBrandName => f.(businessBrandName := v)
    case Description => f.(description := v)
    case PriceRangeMin => f.(priceRangeMin := v)
    case PriceRangeMax => f.(priceRangeMax := v)
    case AvailabilitySchedule => f.(availabilitySchedule := v)
  }

  /** A change event from an input: a typed value, or a checkbox's `checked`. */
  datatype InputEvent =
    | TextInput(name: Field, value: string)
    | CheckboxInput(name: Field, checked: bool)

  /** The events the wizard's inputs emit: text on text fields, the terms checkbox. */
  predicate WellFormedInput(e: InputEvent) {
    match e
    case TextInput(n, _) => IsTextField(n)
    case CheckboxInput(n, _) => n == AgreeToTerms
  }

  /** The record after `handleInputChange(e)`. */
  function ApplyInput(f: Form, e: InputEvent): (r: Form)
    requires WellFormedInput(e)
    ensures e.TextInput? ==> Get(r, e.name) == TextValue(e.value)
    ensures e.CheckboxInput? ==> Get(r, e.name) == Flag(e.checked)
    ensures forall m :: m != e.name ==> Get(r, m) == Get(f, m)
  {
    match e
    case TextInput(n, v) => WithText(f, n, v)
    case CheckboxInput(_, b) => f.(agreeToTerms := b)
  }

  const MaterialTypesRequired := "At least one material type is required"
  const MinPriceRequired := "Minimum price is required"
  const MinPriceInvalid := "Please enter a valid minimum price"
  const MaxPriceRequired := "Maximum price is required"
  const MaxPriceInvalid := "Please enter a valid maximum price"
  const MaxNotAboveMin := "Maximum price must be greater than minimum price"
  const ImagesRequired := "At least one material image is required"
  const LicenseRequired := "NIC/Business License is required"

  /**
   * Step 1, personal details, in the order the rules assign `newErrors`;
   * `nicNumber` is shown but not checked.
   */
  function PersonalErrors(fullName: string, mobileNumber: string, email: string,
                          password: string, confirmPassword: string): ErrorMap {
    var e1 := Put(map[], FullName, RequiredText(fullName, FullNameRequired));
    var e2 := Put(e1, MobileNumber, RequiredText(mobileNumber, MobileRequired));
    var e3 := Put(e2, Email, EmailError(email));
    var e4 := Put(e3, Password, PasswordError(password));
    Put(e4, ConfirmPassword, ConfirmError(password, confirmPassword))
  }

  /** Step 2, location. */
  function LocationErrors(district: string, cityTown: string, address: string): ErrorMap {
    var e1 := Put(map[], District, RequiredChoice(district, DistrictRequired));
    var e2 := Put(e1, CityTown, RequiredText(cityTown, CityTownRequired));
    Put(e2, Address, RequiredText(address, AddressRequired))
  }

  /** Step 3, materials; the brand name is optional. */
  function MaterialErrors(materialTypes: seq<string>, description: string): ErrorMap {
    var e1 := Put(map[], MaterialTypes, if |materialTypes| == 0 then Some(MaterialTypesRequired) else None);
    Put(e1, Description, RequiredText(description, DescriptionRequired))
  }

  /**
   * Step 4, pricing: each bound's own chain, then the unguarded ordering rule,
   * which overwrites whatever `priceRangeMax` held. Delivery and the schedule
   * are not checked.
   */
  function PricingErrors(min: string, max: string): ErrorMap {
    var e1 := Put(map[], PriceRangeMin, PriceError(min, MinPriceRequired, MinPriceInvalid));
    var e2 := Put(e1, PriceRangeMax, PriceError(max, MaxPriceRequired, MaxPriceInvalid));
    Put(e2, PriceRangeMax, if PriceOrderBroken(min, max) then Some(MaxNotAboveMin) else None)
  }

  /** Step 5, documents. */
  function DocumentErrors(images: seq<FileToken>, license: Option<FileToken>): ErrorMap {
    var e1 := Put(map[], MaterialImages, if |images| == 0 then Some(ImagesRequired) else None);
    Put(e1, NicBusinessLicense, if license.None? then Some(LicenseRequired) else None)
  }

  /** Step 6, terms. */
  function TermsErrors(agreeToTerms: bool): ErrorMap {
    Put(map[], AgreeToTerms, if !agreeToTerms then Some(TermsRequired) else None)
  }

  /**
   * What step 4 reports: `priceRangeMin` keeps its own message; `priceRangeMax`
   * reports the ordering failure whenever both bounds parse and are out of
   * order, whatever its own chain said, and its own message otherwise.
   */
  lemma PricingErrorsSpec(min: string, max: string)
    ensures var e := PricingErrors(min, max);
      var own := PriceError(max, MaxPriceRequired, MaxPriceInvalid);
      && e.Keys <= {PriceRangeMin, PriceRangeMax}
      && (PriceRangeMin in e <==> PriceError(min, MinPriceRequired, MinPriceInvalid).Some?)
      && (PriceRangeMin in e ==> e[PriceRangeMin] == PriceError(min, MinPriceRequired, MinPriceInvalid).value)
      && (PriceRangeMax in e <==> PriceOrderBroken(min, max) || own.Some?)
      && (PriceOrderBroken(min, max) ==> e[PriceRangeMax] == MaxNotAboveMin)
      && (!PriceOrderBroken(min, max) && own.Some? ==> e[PriceRangeMax] == own.value)
  {
  }

  /** Step 4 with the bounds out of order: only the maximum is reported. */
  lemma OutOfOrderPricesExample()
    ensures PricingErrors("10000", "5000") == map[PriceRangeMax := MaxNotAboveMin]
  {
    TenThousandParses();
    FiveThousandParses();
    ValidPricesOutOfOrder("10000", "5000");
  }

  /** Two valid prices out of order are reported once, as an ordering failure on the maximum. */
  lemma ValidPricesOutOfOrder(min: string, max: string)
    requires IsPositiveNumber(min) && IsPositiveNumber(max)
    requires ParseNumber(min).value >= ParseNumber(max).value
    ensures PricingErrors(min, max) == map[PriceRangeMax := MaxNotAboveMin]
  {
    assert Put(map[], PriceRangeMin, PriceError(min, MinPriceRequired, MinPriceInvalid)) == map[];
  }

  /** Step 4 with the bounds in order: nothing is reported. */
  lemma InOrderPricesExample()
    ensures PricingErrors("5000", "10000") == map[]
  {
    TenThousandParses();
    FiveThousandParses();
    assert PriceError("5000", MinPriceRequired, MinPriceInvalid).None?;
    assert PriceError("10000", MaxPriceRequired, MaxPriceInvalid).None?;
  }

  /**
   * A blank maximum reads as 0, so against any minimum that is a number at
   * least 0 (a blank one included) the ordering message replaces "Maximum
   * price is required".
   */
  lemma BlankMaxReportsOrder(min: string, max: string)
    requires IsBlank(max)
    requires ParseNumber(min).Some? && ParseNumber(min).value >= 0.0
    ensures PriceRangeMax in PricingErrors(min, max)
    ensures PricingErrors(min, max)[PriceRangeMax] == MaxNotAboveMin
  {
  }

  /**
   * Step 1 evaluates every rule: name and mobile number each hold the message
   * of their own rule, or no entry; the NIC number never has one.
   */
  lemma PersonalEntries(fullName: string, mobileNumber: string, email: string,
                        password: string, confirmPassword: string)
    ensures var e := PersonalErrors(fullName, mobileNumber, email, password, confirmPassword);
      && Lookup(e, FullName) == RequiredText(fullName, FullNameRequired)
      && Lookup(e, MobileNumber) == RequiredText(mobileNumber, MobileRequired)
      && NicNumber !in e
  {
  }

  /** Step 1, continued: e-mail, password and confirmation each hold the first message of their chain. */
  lemma CredentialEntries(fullName: string, mobileNumber: string, email: string,
                          password: string, confirmPassword: string)
    ensures var e := PersonalErrors(fullName, mobileNumber, email, password, confirmPassword);
      && Lookup(e, Email) == EmailError(email)
      && Lookup(e, Password) == PasswordError(password)
      && Lookup(e, ConfirmPassword) == ConfirmError(password, confirmPassword)
  {
  }

  /** Step 2: each location field holds the message of its own rule, or no entry. */
  lemma LocationEntries(district: string, cityTown: string, address: string)
    ensures var e := LocationErrors(district, cityTown, address);
      && Lookup(e, District) == RequiredChoice(district, DistrictRequired)
      && Lookup(e, CityTown) == RequiredText(cityTown, CityTownRequired)
      && Lookup(e, Address) == RequiredText(address, AddressRequired)
  {
  }

  /** Step 3: material types and description are checked; the brand name never has an entry. */
  lemma MaterialEntries(materialTypes: seq<string>, description: string)
    ensures var e := MaterialErrors(materialTypes, description);
      && Lookup(e, MaterialTypes) == (if |materialTypes| == 0 then Some(MaterialTypesRequired) else None)
      && Lookup(e, Description) == RequiredText(description, DescriptionRequired)
      && BusinessBrandName !in e
  {
  }

  /** Step 4: delivery and the schedule never have an entry. */
  lemma PricingUncheckedFields(min: string, max: string)
    ensures DeliveryIncluded !in PricingErrors(min, max) && AvailabilitySchedule !in PricingErrors(min, max)
  {
    PricingErrorsSpec(min, max);
  }

  /** Step 5: the image list and the licence are checked independently. */
  lemma DocumentEntries(images: seq<FileToken>, license: Option<FileToken>)
    ensures var e := DocumentErrors(images, license);
      && Lookup(e, MaterialImages) == (if |images| == 0 then Some(ImagesRequired) else None)
      && Lookup(e, NicBusinessLicense) == (if license.None? then Some(LicenseRequired) else None)
  {
  }

  /** Step 6: the terms checkbox. */
  lemma TermsEntries(agreeToTerms: bool)
    ensures Lookup(TermsErrors(agreeToTerms), AgreeToTerms) == (if agreeToTerms then None else Some(TermsRequired))
  {
  }

  /** The map `validateStep(step)` builds; a step outside 1..6 has no rules. */
  function StepErrors(step: int, f: Form): ErrorMap {
    match step
    case 1 => PersonalErrors(f.fullName, f.mobileNumber, f.email, f.password, f.confirmPassword)
    case 2 => LocationErrors(f.district, f.cityTown, f.address)
    case 3 => MaterialErrors(f.materialTypes, f.description)
    case 4 => PricingErrors(f.priceRangeMin, f.priceRangeMax)
    case 5 => DocumentErrors(f.materialImages, f.nicBusinessLicense)
    case 6 => TermsErrors(f.agreeToTerms)
    case _ => map[]
  }

  /** No field of the step has a message: `Object.keys(newErrors).length === 0`. */
  predicate Passes(step: int, f: Form) {
    StepErrors(step, f).Keys == {}
  }

  /** What each step demands of the record, stated positively. */
  predicate StepSatisfied(step: int, f: Form) {
    match step
    case 1 =>
      !IsBlank(f.fullName) && !IsBlank(f.mobileNumber) &&
      !IsBlank(f.email) && EmailShaped(f.email) &&
      Utf16Length(f.password) >= MinPasswordLength && f.confirmPassword == f.password
    case 2 => f.district != "" && !IsBlank(f.cityTown) && !IsBlank(f.address)
    case 3 => |f.materialTypes| > 0 && !IsBlank(f.description)
    case 4 =>
      IsPositiveNumber(f.priceRangeMin) && IsPositiveNumber(f.priceRangeMax) &&
      ParseNumber(f.priceRangeMin).value < ParseNumber(f.priceRangeMax).value
    case 5 => |f.materialImages| > 0 && f.nicBusinessLicense.Some?
    case 6 => f.agreeToTerms
    case _ => true
  }

  /** Every key of a step's error map is a field shown on that step. */
  lemma StepErrorsKeys(step: int, f: Form)
    ensures StepErrors(step, f).Keys <= StepFields(step)
  {
  }

  /** A step's error map is empty exactly when the record meets the step's demands. */
  lemma PassesIffSatisfied(step: int, f: Form)
    ensures Passes(step, f) <==> StepSatisfied(step, f)
  {
    if step == 4 {
      var min, max := f.priceRangeMin, f.priceRangeMax;
      if IsPositiveNumber(min) && IsPositiveNumber(max) {
        assert PriceOrderBroken(min, max) <==> ParseNumber(min).value >= ParseNumber(max).value;
      }
    }
  }

  /** Agreeing on a step's fields, read through `Get`, is agreeing on the record's components. */
  lemma AgreeOnStepFields(step: int, f: Form, g: Form)
    requires forall n :: n in StepFields(step) ==> Get(f, n) == Get(g, n)
    ensures step == 1 ==>
      && f.fullName == g.fullName && f.mobileNumber == g.mobileNumber
      && f.email == g.email && f.password == g.password && f.confirmPassword == g.confirmPassword
    ensures step == 2 ==> f.district == g.district && f.cityTown == g.cityTown && f.address == g.address
    ensures step == 3 ==> f.materialTypes == g.materialTypes && f.description == g.description
    ensures step == 4 ==> f.priceRangeMin == g.priceRangeMin && f.priceRangeMax == g.priceRangeMax
    ensures step == 5 ==> f.materialImages == g.materialImages && f.nicBusinessLicense == g.nicBusinessLicense
    ensures step == 6 ==> f.agreeToTerms == g.agreeToTerms
  {
    if step == 1 {
      assert Get(f, FullName) == Get(g, FullName) && Get(f, MobileNumber) == Get(g, MobileNumber);
      assert Get(f, Email) == Get(g, Email) && Get(f, Password) == Get(g, Password);
      assert Get(f, ConfirmPassword) == Get(g, ConfirmPassword);
    } else if step == 2 {
      assert Get(f, District) == Get(g, District) && Get(f, CityTown) == Get(g, CityTown);
      assert Get(f, Address) == Get(g, Address);
    } else if step == 3 {
      assert Get(f, MaterialTypes) == Get(g, MaterialTypes);
      assert Get(f, Description) == Get(g, Description);
    } else if step == 4 {
      assert Get(f, PriceRangeMin) == Get(g, PriceRangeMin);
      assert Get(f, PriceRangeMax) == Get(g, PriceRangeMax);
    } else if step == 5 {
      assert Get(f, MaterialImages) == Get(g, MaterialImages);
      assert Get(f, NicBusinessLicense) == Get(g, NicBusinessLicense);
    } else if step == 6 {
      assert Get(f, AgreeToTerms) == Get(g, AgreeToTerms);
    }
  }

  /** Two records that agree on a step's fields get the same errors for that step. */
  lemma StepErrorsLocal(step: int, f: Form, g: Form)
    requires forall n :: n in StepFields(step) ==> Get(f, n) == Get(g, n)
    ensures StepErrors(step, f) == StepErrors(step, g)
  {
    AgreeOnStepFields(step, f, g);
  }

  /** Every step before `upTo` passes. */
  predicate EarlierStepsPassFor(upTo: int, f: Form) {
    forall i :: 1 <= i < upTo ==> Passes(i, f)
  }

  /** Editing a field shown at step `upTo` or later keeps the earlier steps passing. */
  lemma EditKeepsEarlierSteps(upTo: int, f: Form, g: Form, n: Field)
    requires EarlierStepsPassFor(upTo, f)
    requires StepOf(n) >= upTo
    requires forall m :: m != n ==> Get(f, m) == Get(g, m)
    ensures EarlierStepsPassFor(upTo, g)
  {
    forall i | 1 <= i < upTo ensures Passes(i, g) {
      assert Passes(i, f);
      forall m | m in StepFields(i) ensures Get(f, m) == Get(g, m) {
        InStepFieldsIffStepOf(m, i);
      }
      StepErrorsLocal(i, f, g);
    }
  }

  /** All six steps pass: the record is a complete registration. */
  predicate AllStepsPass(f: Form) {
    EarlierStepsPassFor(7, f)
  }

  lemma AllStepsPassIffSatisfied(f: Form)
    ensures AllStepsPass(f) <==> forall i :: 1 <= i <= 6 ==> StepSatisfied(i, f)
  {
    forall i | 1 <= i <= 6 {
      PassesIffSatisfied(i, f);
    }
  }

  /** The component's state and handlers. */
  class MaterialSupplierRegistration {
    var currentStep: int
    var form: Form
    var errors: ErrorMap

    ghost predicate Valid()
      reads this
    {
      1 <= currentStep <= 6
    }

    /** The reachability invariant: every step before the current one passes. */
    ghost predicate EarlierStepsPass()
      reads this
    {
      EarlierStepsPassFor(currentStep, form)
    }

    constructor ()
      ensures Valid() && EarlierStepsPass()
      ensures currentStep == 1 && form == InitialForm && errors == map[]
    {
      currentStep := 1;
      form := InitialForm;
      errors := map[];
    }

    /** `handleInputChange`. */
    method HandleInputChange(e: InputEvent)
      requires WellFormedInput(e)
      modifies this`form, this`errors
      ensures form == ApplyInput(old(form), e)
      ensures errors == ClearError(old(errors), e.name)
      ensures old(EarlierStepsPass()) && StepOf(e.name) >= currentStep ==> EarlierStepsPass()
    {
      ghost var before := form;
      match e {
        case TextInput(n, v) =>
          form := WithText(form, n, v);
        case CheckboxInput(_, b) =>
          form := form.(agreeToTerms := b);
      }
      errors := ClearError(errors, e.name);
      if EarlierStepsPassFor(currentStep, before) && StepOf(e.name) >= currentStep {
        EditKeepsEarlierSteps(currentStep, before, form, e.name);
      }
    }

    /** `handleMaterialTypeToggle`. */
    method HandleMaterialTypeToggle(materialType: string)
      modifies this`form, this`errors
      ensures form == old(form).(materialTypes := Lists.Toggle(old(form).materialTypes, materialType))
      ensures errors == ClearError(old(errors), MaterialTypes)
      ensures old(EarlierStepsPass()) && currentStep <= 3 ==> EarlierStepsPass()
    {
      ghost var before := form;
      form := form.(materialTypes := Lists.Toggle(form.materialTypes, materialType));
      errors := ClearError(errors, MaterialTypes);
      if EarlierStepsPassFor(currentStep, before) && currentStep <= 3 {
        EditKeepsEarlierSteps(currentStep, before, form, MaterialTypes);
      }
    }

    /** The inline `deliveryIncluded` switch on the pricing page. */
    method ToggleDeliveryIncluded()
      modifies this`form
      ensures form == old(form).(deliveryIncluded := !old(form).deliveryIncluded)
      ensures old(EarlierStepsPass()) && currentStep <= 4 ==> EarlierStepsPass()
    {
      ghost var before := form;
      form := form.(deliveryIncluded := !form.deliveryIncluded);
      if EarlierStepsPassFor(currentStep, before) && currentStep <= 4 {
        EditKeepsEarlierSteps(currentStep, before, form, DeliveryIncluded);
      }
    }

    /**
     * `handleFileUpload(files, fieldName)`: material images are appended in the
     * order chosen; the licence is replaced by the first file, or null.
     */
    method HandleFileUpload(fieldName: Field, files: seq<FileToken>)
      requires fieldName == MaterialImages || fieldName == NicBusinessLicense
      modifies this`form, this`errors
      ensures fieldName == MaterialImages ==>
        form == old(form).(materialImages := old(form).materialImages + files)
      ensures fieldName == NicBusinessLicense ==>
        form == old(form).(nicBusinessLicense := FirstOrNull(files))
      ensures errors == ClearError(old(errors), fieldName)
      ensures old(EarlierStepsPass()) && currentStep <= 5 ==> EarlierStepsPass()
    {
      ghost var before := form;
      if fieldName == MaterialImages {
        form := form.(materialImages := form.materialImages + files);
      } else {
        form := form.(nicBusinessLicense := FirstOrNull(files));
      }
      errors := ClearError(errors, fieldName);
      if EarlierStepsPassFor(currentStep, before) && currentStep <= 5 {
        EditKeepsEarlierSteps(currentStep, before, form, fieldName);
      }
    }

    /** `removeMaterialImage(index)`; the error map is not touched. */
    method RemoveMaterialImage(index: int)
      modifies this`form
      ensures form == old(form).(materialImages := Lists.RemoveAt(old(form).materialImages, index))
      ensures old(EarlierStepsPass()) && currentStep <= 5 ==> EarlierStepsPass()
    {
      ghost var before := form;
      form := form.(materialImages := Lists.RemoveAt(form.materialImages, index));
      if EarlierStepsPassFor(currentStep, before) && currentStep <= 5 {
        EditKeepsEarlierSteps(currentStep, before, form, MaterialImages);
      }
    }

    /** `validateStep(step)`: replaces `errors` wholesale and reports whether it is empty. */
    method ValidateStep(step: int) returns (ok: bool)
      modifies this`errors
      ensures errors == StepErrors(step, form)
      ensures ok <==> Passes(step, form)
    {
      var newErrors := StepErrors(step, form);
      errors := newErrors;
      ok := |newErrors| == 0;
      NoKeysIffEmpty(newErrors);
    }

    /** `nextStep`: validate the current step, advance only when it has no errors. */
    method NextStep()
      requires Valid()
      modifies this`currentStep, this`errors
      ensures Valid()
      ensures errors == StepErrors(old(currentStep), form)
      ensures Passes(old(currentStep), form) ==>
        currentStep == if old(currentStep) < 6 then old(currentStep) + 1 else 6
      ensures !Passes(old(currentStep), form) ==> currentStep == old(currentStep)
      ensures old(EarlierStepsPass()) ==> EarlierStepsPass()
    {
      var ok := ValidateStep(currentStep);
      if ok {
        currentStep := if currentStep + 1 < 6 then currentStep + 1 else 6;
      }
    }

    /** `prevStep`: never validates and leaves `errors` as it is. */
    method PrevStep()
      requires Valid()
      modifies this`currentStep
      ensures Valid()
      ensures currentStep == if old(currentStep) > 1 then old(currentStep) - 1 else 1
      ensures old(EarlierStepsPass()) ==> EarlierStepsPass()
    {
      currentStep := if currentStep - 1 > 1 then currentStep - 1 else 1;
    }

    /**
     * `handleSubmit`: re-checks step 6 only; on success the record, tagged
     * with its role and type, goes to `onSubmit`. The form can also be
     * submitted from an earlier page, so all six steps are concluded to pass
     * only for a submission from step 6.
     */
    method HandleSubmit() returns (submitted: Option<Submission>)
      modifies this`errors
      ensures errors == StepErrors(6, form)
      ensures submitted.Some? <==> form.agreeToTerms
      ensures submitted.Some? ==> submitted.value == Submission(form, Role, Role)
      ensures submitted.Some? && currentStep == 6 && EarlierStepsPass() ==> AllStepsPass(form)
    {
      var ok := ValidateStep(6);
      PassesIffSatisfied(6, form);
      if ok {
        submitted := Some(Submission(form, Role, Role));
      } else {
        submitted := None;
      }
    }
  }
}
