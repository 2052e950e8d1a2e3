/**
 * The six-step vehicle-owner registration wizard: its record, its rule table,
 * and the component state (`currentStep`, `formData`, `errors`) with the
 * handlers that update it.
 */
module VehicleOwner {
  import opened Wrappers
  import opened Text
  import opened Forms
  import opened FieldRules

  /** The keys of `formData`, which are also the keys of `errors`. */
  datatype Field =
    | FullName | NicNumber | MobileNumber | Email | Password | ConfirmPassword
    | District | CityTown | Address
    | VehicleType | ModelBrand | RegistrationNumber | Description
    | PriceAmount | PriceUnit | AvailabilitySchedule
    | VehicleImage | NicLicenseImage
    | AgreeToTerms

  /** `formData`. */
  datatype Form = Form(
    fullName: string, nicNumber: string, mobileNumber: string,
    email: string, password: string, confirmPassword: string,
    district: string, cityTown: string, address: string,
    vehicleType: string, modelBrand: string, registrationNumber: string, description: string,
    priceAmount: string, priceUnit: string, availabilitySchedule: string,
    vehicleImage: Option<FileToken>, nicLicenseImage: Option<FileToken>,
    agreeToTerms: bool)

  type ErrorMap = map<Field, string>

  /** The record the component starts with: everything empty, rent by the hour. */
  const InitialForm := Form(
    "", "", "", "", "", "",
    "", "", "",
    "", "", "", "",
    "", "hour", "",
    None, None,
    false)

  /** The record the wizard hands to its `onSubmit` callback. */
  datatype Submission = Submission(form: Form, role: string, kind: string)

  const Role := "vehicle_owner"

  /** The value held under a field name. */
  function Get(f: Form, n: Field): FieldValue {
    match n
    case FullName => TextValue(f.fullName)
    case NicNumber => TextValue(f.nicNumber)
    case MobileNumber => TextValue(f.mobileNumber)
    case Email => TextValue(f.email)
    case Password => TextValue(f.password)
    case ConfirmPassword => TextValue(f.confirmPassword)
    case District => TextValue(f.district)
    case CityTown => TextValue(f.cityTown)
    case Address => TextValue(f.address)
    case VehicleType => TextValue(f.vehicleType)
    case ModelBrand => TextValue(f.modelBrand)
    case RegistrationNumber => TextValue(f.registrationNumber)
    case Description => TextValue(f.description)
    case PriceAmount => TextValue(f.priceAmount)
    case PriceUnit => TextValue(f.priceUnit)
    case AvailabilitySchedule => TextValue(f.availabilitySchedule)
    case VehicleImage => Attachment(f.vehicleImage)
    case NicLicenseImage => Attachment(f.nicLicenseImage)
    case AgreeToTerms => Flag(f.agreeToTerms)
  }

  /** The step whose page shows the field's input. */
  function StepOf(n: Field): (k: int)
    ensures 1 <= k <= 6
  {
    match n
    case FullName | NicNumber | MobileNumber | Email | Password | ConfirmPassword => 1
    case District | CityTown | Address => 2
    case VehicleType | ModelBrand | RegistrationNumber | Description => 3
    case PriceAmount | PriceUnit | AvailabilitySchedule => 4
    case VehicleImage | NicLicenseImage => 5
    case AgreeToTerms => 6
  }

  /** The fields each step's page shows. */
  function StepFields(step: int): set<Field> {
    match step
    case 1 => {FullName, NicNumber, MobileNumber, Email, Password, ConfirmPassword}
    case 2 => {District, CityTown, Address}
    case 3 => {VehicleType, ModelBrand, RegistrationNumber, Description}
    case 4 => {PriceAmount, PriceUnit, AvailabilitySchedule}
    case 5 => {VehicleImage, NicLicenseImage}
    case 6 => {AgreeToTerms}
    case _ => {}
  }

  /** A field belongs to exactly the step StepOf names. */
  lemma InStepFieldsIffStepOf(n: Field, step: int)
    ensures n in StepFields(step) <==> StepOf(n) == step
  {
  }

  /** Fields edited through text inputs, text areas or selects. */
  predicate IsTextField(n: Field) {
    Get(InitialForm, n).TextValue?
  }

  /** `setFormData(prev => ({ ...prev, [name]: value }))` for a text field. */
  function WithText(f: Form, n: Field, v: string): (r: Form)
    requires IsTextField(n)
    ensures Get(r, n) == TextValue(v)
    ensures forall m :: m != n ==> Get(r, m) == Get(f, m)
  {
    match n
    case FullName => f.(fullName := v)
    case NicNumber => f.(nicNumber := v)
    case MobileNumber => f.(mobileNumber := v)
    case Email => f.(email := v)
    case Password => f.(password := v)
    case ConfirmPassword => f.(confirmPassword := v)
    case District => f.(district := v)
    case CityTown => f.(cityTown := v)
    case Address => f.(address := v)
    case VehicleType => f.(vehicleType := v)
    case ModelBrand => f.(modelBrand := v)
    case RegistrationNumber => f.(registrationNumber := v)
    case Description => f.(description := v)
    case PriceAmount => f.(priceAmount := v)
    case PriceUnit => f.(priceUnit := v)
    case AvailabilitySchedule => f.(availabilitySchedule := v)
  }

  /** A change event from an input: a typed value, or a checkbox's `checked`. */
  datatype InputEvent =
    | TextInput(name: Field, value: string)
    | CheckboxInput(name: Field, checked: bool)

  /** The events the wizard's inputs emit: text on text fields, the terms checkbox. */
  predicate WellFormedInput(e: InputEvent) {
    match e
    case TextInput(n, _) => IsTextField(n)
    case CheckboxInput(n, _) => n == AgreeToTerms
  }

  /** The record after `handleInputChange(e)`. */
  function ApplyInput(f: Form, e: InputEvent): (r: Form)
    requires WellFormedInput(e)
    ensures e.TextInput? ==> Get(r, e.name) == TextValue(e.value)
    ensures e.CheckboxInput? ==> Get(r, e.name) == Flag(e.checked)
    ensures forall m :: m != e.name ==> Get(r, m) == Get(f, m)
  {
    match e
    case TextInput(n, v) => WithText(f, n, v)
    case CheckboxInput(_, b) => f.(agreeToTerms := b)
  }

  const NicRequired := "NIC number is required"
  const VehicleTypeRequired := "Vehicle type is required"
  const ModelBrandRequired := "Model/Brand is required"
  const PriceRequired := "Price is required"
  const PriceInvalid := "Please enter a valid price"
  const VehicleImageRequired := "Vehicle image is required"
  const LicenseImageRequired := "NIC/License image is required"

  /** Step 1, personal details, in the order the rules assign `newErrors`. */
  function PersonalErrors(fullName: string, nicNumber: string, mobileNumber: string,
                          email: string, password: string, confirmPassword: string): ErrorMap {
    var e1 := Put(map[], FullName, RequiredText(fullName, FullNameRequired));
    var e2 := Put(e1, NicNumber, RequiredText(nicNumber, NicRequired));
    var e3 := Put(e2, MobileNumber, RequiredText(mobileNumber, MobileRequired));
    var e4 := Put(e3, Email, EmailError(email));
    var e5 := Put(e4, Password, PasswordError(password));
    Put(e5, ConfirmPassword, ConfirmError(password, confirmPassword))
  }

  /** Step 2, location. */
  function LocationErrors(district: string, cityTown: string, address: string): ErrorMap {
    var e1 := Put(map[], District, RequiredChoice(district, DistrictRequired));
    var e2 := Put(e1, CityTown, RequiredText(cityTown, CityTownRequired));
    Put(e2, Address, RequiredText(address, AddressRequired))
  }

  /** Step 3, the vehicle; the registration number is optional. */
  function VehicleErrors(vehicleType: string, modelBrand: string, description: string): ErrorMap {
    var e1 := Put(map[], VehicleType, RequiredChoice(vehicleType, VehicleTypeRequired));
    var e2 := Put(e1, ModelBrand, RequiredText(modelBrand, ModelBrandRequired));
    Put(e2, Description, RequiredText(description, DescriptionRequired))
  }

  /** Step 4, rental terms; the unit and the schedule are not checked. */
  function RentalErrors(priceAmount: string): ErrorMap {
    Put(map[], PriceAmount, PriceError(priceAmount, PriceRequired, PriceInvalid))
  }

  /** Step 5, media. */
  function MediaErrors(vehicleImage: Option<FileToken>, licenseImage: Option<FileToken>): ErrorMap {
    var e1 := Put(map[], VehicleImage, if vehicleImage.None? then Some(VehicleImageRequired) else None);
    Put(e1, NicLicenseImage, if licenseImage.None? then Some(LicenseImageRequired) else None)
  }

  /** Step 6, terms. */
  function TermsErrors(agreeToTerms: bool): ErrorMap {
    Put(map[], AgreeToTerms, if !agreeToTerms then Some(TermsRequired) else None)
  }

  /**
   * Step 1 evaluates every rule: each identity field holds the message of its
   * own rule, or no entry when it passes.
   */
  lemma PersonalEntries(fullName: string, nicNumber: string, mobileNumber: string,
                        email: string, password: string, confirmPassword: string)
    ensures var e := PersonalErrors(fullName, nicNumber, mobileNumber, email, password, confirmPassword);
      && Lookup(e, FullName) == RequiredText(fullName, FullNameRequired)
      && Lookup(e, NicNumber) == RequiredText(nicNumber, NicRequired)
      && Lookup(e, MobileNumber) == RequiredText(mobileNumber, MobileRequired)
  {
  }

  /** Step 1, continued: e-mail, password and confirmation each hold the first message of their chain. */
  lemma CredentialEntries(fullName: string, nicNumber: string, mobileNumber: string,
                          email: string, password: string, confirmPassword: string)
    ensures var e := PersonalErrors(fullName, nicNumber, mobileNumber, email, password, confirmPassword);
      && Lookup(e, Email) == EmailError(email)
      && Lookup(e, Password) == PasswordError(password)
      && Lookup(e, ConfirmPassword) == ConfirmError(password, confirmPassword)
  {
  }

  /** Step 2: each location field holds the message of its own rule, or no entry. */
  lemma LocationEntries(district: string, cityTown: string, address: string)
    ensures var e := LocationErrors(district, cityTown, address);
      && Lookup(e, District) == RequiredChoice(district, DistrictRequired)
      && Lookup(e, CityTown) == RequiredText(cityTown, CityTownRequired)
      && Lookup(e, Address) == RequiredText(address, AddressRequired)
  {
  }

  /** Step 3: type, model and description are checked; the registration number never has an entry. */
  lemma VehicleEntries(vehicleType: string, modelBrand: string, description: string)
    ensures var e := VehicleErrors(vehicleType, modelBrand, description);
      && Lookup(e, VehicleType) == RequiredChoice(vehicleType, VehicleTypeRequired)
      && Lookup(e, ModelBrand) == RequiredText(modelBrand, ModelBrandRequired)
      && Lookup(e, Description) == RequiredText(description, DescriptionRequired)
      && RegistrationNumber !in e
  {
  }

  /** Step 4: the price holds the first message of its chain, or no entry. */
  lemma RentalEntries(priceAmount: string)
    ensures Lookup(RentalErrors(priceAmount), PriceAmount) == PriceError(priceAmount, PriceRequired, PriceInvalid)
  {
  }

  /** Step 4: the unit and the schedule never have an entry. */
  lemma RentalUncheckedFields(priceAmount: string)
    ensures PriceUnit !in RentalErrors(priceAmount) && AvailabilitySchedule !in RentalErrors(priceAmount)
  {
  }

  /** Step 5: the two images are checked independently. */
  lemma MediaEntries(vehicleImage: Option<FileToken>, licenseImage: Option<FileToken>)
    ensures var e := MediaErrors(vehicleImage, licenseImage);
      && Lookup(e, VehicleImage) == (if vehicleImage.None? then Some(VehicleImageRequired) else None)
      && Lookup(e, NicLicenseImage) == (if licenseImage.None? then Some(LicenseImageRequired) else None)
  {
  }

  /** Step 6: the terms checkbox. */
  lemma TermsEntries(agreeToTerms: bool)
    ensures Lookup(TermsErrors(agreeToTerms), AgreeToTerms) == (if agreeToTerms then None else Some(TermsRequired))
  {
  }

  /** The map `validateStep(step)` builds; a step outside 1..6 has no rules. */
  function StepErrors(step: int, f: Form): ErrorMap {
    match step
    case 1 => PersonalErrors(f.fullName, f.nicNumber, f.mobileNumber, f.email, f.password, f.confirmPassword)
    case 2 => LocationErrors(f.district, f.cityTown, f.address)
    case 3 => VehicleErrors(f.vehicleType, f.modelBrand, f.description)
    case 4 => RentalErrors(f.priceAmount)
    case 5 => MediaErrors(f.vehicleImage, f.nicLicenseImage)
    case 6 => TermsErrors(f.agreeToTerms)
    case _ => map[]
  }

  /** No field of the step has a message: `Object.keys(newErrors).length === 0`. */
  predicate Passes(step: int, f: Form) {
    StepErrors(step, f).Keys == {}
  }

  /** What each step demands of the record, stated positively. */
  predicate StepSatisfied(step: int, f: Form) {
    match step
    case 1 =>
      !IsBlank(f.fullName) && !IsBlank(f.nicNumber) && !IsBlank(f.mobileNumber) &&
      !IsBlank(f.email) && EmailShaped(f.email) &&
      Utf16Length(f.password) >= MinPasswordLength && f.confirmPassword == f.password
    case 2 => f.district != "" && !IsBlank(f.cityTown) && !IsBlank(f.address)
    case 3 => f.vehicleType != "" && !IsBlank(f.modelBrand) && !IsBlank(f.description)
    case 4 => IsPositiveNumber(f.priceAmount)
    case 5 => f.vehicleImage.Some? && f.nicLicenseImage.Some?
    case 6 => f.agreeToTerms
    case _ => true
  }

  /** Every key of a step's error map is a field shown on that step. */
  lemma StepErrorsKeys(step: int, f: Form)
    ensures StepErrors(step, f).Keys <= StepFields(step)
  {
  }

  /** A step's error map is empty exactly when the record meets the step's demands. */
  lemma PassesIffSatisfied(step: int, f: Form)
    ensures Passes(step, f) <==> StepSatisfied(step, f)
  {
  }

  /** Step 4 with a number above zero: nothing is reported. */
  lemma ValidPriceExample()
    ensures RentalErrors("5000") == map[]
  {
    assert PriceError("5000", PriceRequired, PriceInvalid).None? by {
      PriceRuleExamples(PriceRequired, PriceInvalid);
    }
  }

  /** Step 4 with an empty price: the price is reported missing. */
  lemma BlankPriceExample()
    ensures RentalErrors("") == map[PriceAmount := PriceRequired]
  {
    assert PriceError("", PriceRequired, PriceInvalid) == Some(PriceRequired) by {
      PriceRuleExamples(PriceRequired, PriceInvalid);
    }
  }

  /** A price that is not a number is reported as invalid, not as missing. */
  lemma WordPriceExample()
    ensures RentalErrors("abc") == map[PriceAmount := PriceInvalid]
  {
    assert PriceError("abc", PriceRequired, PriceInvalid) == Some(PriceInvalid) by {
      PriceRuleExamples(PriceRequired, PriceInvalid);
    }
  }

  /** Agreeing on a step's fields, read through `Get`, is agreeing on the record's components. */
  lemma AgreeOnStepFields(step: int, f: Form, g: Form)
    requires forall n :: n in StepFields(step) ==> Get(f, n) == Get(g, n)
    ensures step == 1 ==>
      && f.fullName == g.fullName && f.nicNumber == g.nicNumber && f.mobileNumber == g.mobileNumber
      && f.email == g.email && f.password == g.password && f.confirmPassword == g.confirmPassword
    ensures step == 2 ==> f.district == g.district && f.cityTown == g.cityTown && f.address == g.address
    ensures step == 3 ==>
      f.vehicleType == g.vehicleType && f.modelBrand == g.modelBrand && f.description == g.description
    ensures step == 4 ==> f.priceAmount == g.priceAmount
    ensures step == 5 ==> f.vehicleImage == g.vehicleImage && f.nicLicenseImage == g.nicLicenseImage
    ensures step == 6 ==> f.agreeToTerms == g.agreeToTerms
  {
    if step == 1 {
      assert Get(f, FullName) == Get(g, FullName) && Get(f, NicNumber) == Get(g, NicNumber);
      assert Get(f, MobileNumber) == Get(g, MobileNumber) && Get(f, Email) == Get(g, Email);
      assert Get(f, Password) == Get(g, Password) && Get(f, ConfirmPassword) == Get(g, ConfirmPassword);
    } else if step == 2 {
      assert Get(f, District) == Get(g, District) && Get(f, CityTown) == Get(g, CityTown);
      assert Get(f, Address) == Get(g, Address);
    } else if step == 3 {
      assert Get(f, VehicleType) == Get(g, VehicleType) && Get(f, ModelBrand) == Get(g, ModelBrand);
      assert Get(f, Description) == Get(g, Description);
    } else if step == 4 {
      assert Get(f, PriceAmount) == Get(g, PriceAmount);
    } else if step == 5 {
      assert Get(f, VehicleImage) == Get(g, VehicleImage);
      assert Get(f, NicLicenseImage) == Get(g, NicLicenseImage);
    } else if step == 6 {
      assert Get(f, AgreeToTerms) == Get(g, AgreeToTerms);
    }
  }

  /** Two records that agree on a step's fields get the same errors for that step. */
  lemma StepErrorsLocal(step: int, f: Form, g: Form)
    requires forall n :: n in StepFields(step) ==> Get(f, n) == Get(g, n)
    ensures StepErrors(step, f) == StepErrors(step, g)
  {
    AgreeOnStepFields(step, f, g);
  }

  /** Every step before `upTo` passes. */
  predicate EarlierStepsPassFor(upTo: int, f: Form) {
    forall i :: 1 <= i < upTo ==> Passes(i, f)
  }

  /** Editing a field shown at step `upTo` or later keeps the earlier steps passing. */
  lemma EditKeepsEarlierSteps(upTo: int, f: Form, g: Form, n: Field)
    requires EarlierStepsPassFor(upTo, f)
    requires StepOf(n) >= upTo
    requires forall m :: m != n ==> Get(f, m) == Get(g, m)
    ensures EarlierStepsPassFor(upTo, g)
  {
    forall i | 1 <= i < upTo ensures Passes(i, g) {
      assert Passes(i, f);
      forall m | m in StepFields(i) ensures Get(f, m) == Get(g, m) {
        InStepFieldsIffStepOf(m, i);
      }
      StepErrorsLocal(i, f, g);
    }
  }

  /** All six steps pass: the record is a complete registration. */
  predicate AllStepsPass(f: Form) {
    EarlierStepsPassFor(7, f)
  }

  lemma AllStepsPassIffSatisfied(f: Form)
    ensures AllStepsPass(f) <==> forall i :: 1 <= i <= 6 ==> StepSatisfied(i, f)
  {
    forall i | 1 <= i <= 6 {
      PassesIffSatisfied(i, f);
    }
  }

  /** The component's state and handlers. */
  class VehicleOwnerRegistration {
    var currentStep: int
    var form: Form
    var errors: ErrorMap

    ghost predicate Valid()
      reads this
    {
      1 <= currentStep <= 6
    }

    /** The reachability invariant: every step before the current one passes. */
    ghost predicate EarlierStepsPass()
      reads this
    {
      EarlierStepsPassFor(currentStep, form)
    }

    constructor ()
      ensures Valid() && EarlierStepsPass()
      ensures currentStep == 1 && form == InitialForm && errors == map[]
    {
      currentStep := 1;
      form := InitialForm;
      errors := map[];
    }

    /** `handleInputChange`. */
    method HandleInputChange(e: InputEvent)
      requires WellFormedInput(e)
      modifies this`form, this`errors
      ensures form == ApplyInput(old(form), e)
      ensures errors == ClearError(old(errors), e.name)
      ensures old(EarlierStepsPass()) && StepOf(e.name) >= currentStep ==> EarlierStepsPass()
    {
      ghost var before := form;
      match e {
        case TextInput(n, v) =>
          form := WithText(form, n, v);
        case CheckboxInput(_, b) =>
          form := form.(agreeToTerms := b);
      }
      errors := ClearError(errors, e.name);
      if EarlierStepsPassFor(currentStep, before) && StepOf(e.name) >= currentStep {
        EditKeepsEarlierSteps(currentStep, before, form, e.name);
      }
    }

    /** `handleFileUpload(files, fieldName)`: the field holds the first file, or null. */
    method HandleFileUpload(fieldName: Field, files: seq<FileToken>)
      requires fieldName == VehicleImage || fieldName == NicLicenseImage
      modifies this`form, this`errors
      ensures fieldName == VehicleImage ==> form == old(form).(vehicleImage := FirstOrNull(files))
      ensures fieldName == NicLicenseImage ==> form == old(form).(nicLicenseImage := FirstOrNull(files))
      ensures errors == ClearError(old(errors), fieldName)
      ensures old(EarlierStepsPass()) && currentStep <= 5 ==> EarlierStepsPass()
    {
      ghost var before := form;
      var file := FirstOrNull(files);
      if fieldName == VehicleImage {
        form := form.(vehicleImage := file);
      } else {
        form := form.(nicLicenseImage := file);
      }
      errors := ClearError(errors, fieldName);
      if EarlierStepsPassFor(currentStep, before) && currentStep <= 5 {
        EditKeepsEarlierSteps(currentStep, before, form, fieldName);
      }
    }

    /** `validateStep(step)`: replaces `errors` wholesale and reports whether it is empty. */
    method ValidateStep(step: int) returns (ok: bool)
      modifies this`errors
      ensures errors == StepErrors(step, form)
      ensures ok <==> Passes(step, form)
    {
      var newErrors := StepErrors(step, form);
      errors := newErrors;
      ok := |newErrors| == 0;
      NoKeysIffEmpty(newErrors);
    }

    /** `nextStep`: validate the current step, advance only when it has no errors. */
    method NextStep()
      requires Valid()
      modifies this`currentStep, this`errors
      ensures Valid()
      ensures errors == StepErrors(old(currentStep), form)
      ensures Passes(old(currentStep), form) ==>
        currentStep == if old(currentStep) < 6 then old(currentStep) + 1 else 6
      ensures !Passes(old(currentStep), form) ==> currentStep == old(currentStep)
      ensures old(EarlierStepsPass()) ==> EarlierStepsPass()
    {
      var ok := ValidateStep(currentStep);
      if ok {
        currentStep := if currentStep + 1 < 6 then currentStep + 1 else 6;
      }
    }

    /** `prevStep`: never validates and leaves `errors` as it is. */
    method PrevStep()
      requires Valid()
      modifies this`currentStep
      ensures Valid()
      ensures currentStep == if old(currentStep) > 1 then old(currentStep) - 1 else 1
      ensures old(EarlierStepsPass()) ==> EarlierStepsPass()
    {
      currentStep := if currentStep - 1 > 1 then currentStep - 1 else 1;
    }

    /**
     * `handleSubmit`: re-checks step 6 only; on success the record, tagged
     * with its role and type, goes to `onSubmit`. The form can also be
     * submitted from an earlier page, so all six steps are concluded to pass
     * only for a submission from step 6.
     */
    method HandleSubmit() returns (submitted: Option<Submission>)
      modifies this`errors
      ensures errors == StepErrors(6, form)
      ensures submitted.Some? <==> form.agreeToTerms
      ensures submitted.Some? ==> submitted.value == Submission(form, Role, Role)
      ensures submitted.Some? && currentStep == 6 && EarlierStepsPass() ==> AllStepsPass(form)
    {
      var ok := ValidateStep(6);
      PassesIffSatisfied(6, form);
      if ok {
        submitted := Some(Submission(form, Role, Role));
      } else {
        submitted := None;
      }
    }
  }
}
