/**
 * The root component: which page is shown, the signed-in user and partner,
 * the record waiting on the confirmation page, and the menu and modal flags,
 * with the handlers that update them and the switch that picks the page.
 */
module Root {
  import opened Wrappers
  import opened Forms
  import MaterialSupplier
  import VehicleOwner

  /** `ViewType`. */
  datatype View =
    | Home | Vehicles | Materials | About | Contact | SignUp | Confirmation
    | Dashboard | VehicleDetails | Profile | PartnerDashboard

  /**
   * A signed-in user. The profile fields are read from loosely typed records,
   * so each may be absent (`undefined`).
   */
  datatype User = User(
    id: string, name: Option<string>, email: Option<string>, phone: Option<string>,
    role: Option<string>, isAuthenticated: bool)

  /** `Partial<User>`: a present key overrides the user's value. */
  datatype UserPatch = UserPatch(
    id: Option<string>, name: Option<string>, email: Option<string>, phone: Option<string>,
    role: Option<string>, isAuthenticated: Option<bool>)

  datatype InsuranceDetails = InsuranceDetails(provider: string, policyNumber: string, expiryDate: string)

  datatype Documents = Documents(
    businessLicense: Option<FileToken>, insurance: Option<FileToken>,
    brCertificate: Option<FileToken>, vehiclePhotos: seq<FileToken>)

  /** A business account: a vehicle owner or a material supplier. */
  datatype Partner = Partner(
    id: string, kind: Option<string>, businessName: string, ownerName: Option<string>,
    email: Option<string>, phone: Option<string>, address: string, district: string,
    businessLicense: string, brNumber: string, yearsInBusiness: int, description: string,
    services: seq<string>, certifications: seq<string>,
    insuranceDetails: InsuranceDetails, documents: Documents,
    status: string, registrationDate: string, rating: int, totalJobs: int,
    notifications: seq<string>)

  /** A vehicle from the catalogue, handled as an opaque reference. */
  datatype Vehicle = Vehicle(id: nat)

  /**
   * `registrationData` as far as the confirmation handler reads it: the keys
   * it looks up, each possibly absent from the submitted record.
   */
  datatype RegistrationData = RegistrationData(
    name: Option<string>, email: Option<string>, phone: Option<string>, role: Option<string>,
    businessName: Option<string>, address: Option<string>, district: Option<string>)

  const VehicleOwnerRole := "vehicle_owner"
  const MaterialSupplierRole := "material_supplier"
  const PendingStatus := "pending"

  /** The record the supplier wizard submits, seen through those keys. */
  function FromSupplier(s: MaterialSupplier.Submission): (r: RegistrationData)
    ensures r.role == Some(s.role)
    ensures r.email == Some(s.form.email)
    ensures r.address == Some(s.form.address) && r.district == Some(s.form.district)
    ensures r.name.None? && r.phone.None? && r.businessName.None?
  {
    RegistrationData(None, Some(s.form.email), None, Some(s.role), None,
                     Some(s.form.address), Some(s.form.district))
  }

  /** The record the vehicle-owner wizard submits, seen through those keys. */
  function FromVehicleOwner(s: VehicleOwner.Submission): (r: RegistrationData)
    ensures r.role == Some(s.role)
    ensures r.email == Some(s.form.email)
    ensures r.address == Some(s.form.address) && r.district == Some(s.form.district)
    ensures r.name.None? && r.phone.None? && r.businessName.None?
  {
    RegistrationData(None, Some(s.form.email), None, Some(s.role), None,
                     Some(s.form.address), Some(s.form.district))
  }

  /** `value || ''` for a string key that may be absent. */
  function OrEmpty(value: Option<string>): (r: string)
    ensures value.Some? ==> r == value.value
    ensures value.None? ==> r == ""
  {
    match value
    case Some(v) => v
    case None => ""
  }

  /** The roles that get a partner account and the partner dashboard. */
  predicate IsBusinessRole(role: Option<string>) {
    role == Some(VehicleOwnerRole) || role == Some(MaterialSupplierRole)
  }

  /** The user created on confirmation; `now` is `Date.now().toString()`. */
  function NewUser(data: RegistrationData, now: string): (u: User)
    ensures u.isAuthenticated && u.id == now
    ensures u.name == data.name && u.email == data.email && u.phone == data.phone
    ensures u.role == data.role
  {
    User(now, data.name, data.email, data.phone, data.role, true)
  }

  /**
   * The pending partner created for a business role; `now` is
   * `Date.now().toString()` and `isoNow` is `new Date().toISOString()`.
   */
  function NewPartner(data: RegistrationData, now: string, isoNow: string): (p: Partner)
    ensures p.id == now && p.kind == data.role && p.registrationDate == isoNow
    ensures p.status == PendingStatus && p.rating == 0 && p.totalJobs == 0
    ensures p.ownerName == data.name && p.email == data.email && p.phone == data.phone
    ensures p.businessName == OrEmpty(data.businessName)
    ensures p.address == OrEmpty(data.address) && p.district == OrEmpty(data.district)
    ensures p.services == [] && p.certifications == [] && p.notifications == []
    ensures p.documents == Documents(None, None, None, [])
  {
    Partner(now, data.role, OrEmpty(data.businessName), data.name, data.email, data.phone,
            OrEmpty(data.address), OrEmpty(data.district), "", "", 0, "", [], [],
            InsuranceDetails("", "", ""), Documents(None, None, None, []),
            PendingStatus, isoNow, 0, 0, [])
  }

  /** `{ ...user, ...updatedData }`. */
  function Merge(u: User, patch: UserPatch): (r: User)
    ensures r.id == (if patch.id.Some? then patch.id.value else u.id)
    ensures r.name == (if patch.name.Some? then patch.name else u.name)
    ensures r.email == (if patch.email.Some? then patch.email else u.email)
    ensures r.phone == (if patch.phone.Some? then patch.phone else u.phone)
    ensures r.role == (if patch.role.Some? then patch.role else u.role)
    ensures r.isAuthenticated == (if patch.isAuthenticated.Some? then patch.isAuthenticated.value else u.isAuthenticated)
  {
    User(
      match patch.id case Some(v) => v case None => u.id,
      if patch.name.Some? then patch.name else u.name,
      if patch.email.Some? then patch.email else u.email,
      if patch.phone.Some? then patch.phone else u.phone,
      if patch.role.Some? then patch.role else u.role,
      match patch.isAuthenticated case Some(b) => b case None => u.isAuthenticated)
  }

  const EmptyPatch := UserPatch(None, None, None, None, None, None)

  /** An empty patch changes nothing. */
  lemma MergeEmpty(u: User)
    ensures Merge(u, EmptyPatch) == u
  {
  }

  /** Applying a patch a second time changes nothing more. */
  lemma MergeIdempotent(u: User, patch: UserPatch)
    ensures Merge(Merge(u, patch), patch) == Merge(u, patch)
  {
  }

  /** A snapshot of the component's state hooks. */
  datatype State = State(
    currentView: View, user: Option<User>, partner: Option<Partner>,
    isMenuOpen: bool, isAuthModalOpen: bool, selectedVehicle: Option<Vehicle>,
    registrationData: Option<RegistrationData>,
    isVehicleRegistrationOpen: bool, isMaterialRegistrationOpen: bool)

  const InitialState := State(Home, None, None, false, false, None, None, false, false)

  /** What `renderCurrentView` puts on the page, with the value it is given. */
  datatype Page =
    | HomePage
    | VehiclesPage
    | MaterialsPage
    | AboutPage
    | ContactPage
    | SignUpPage
    | ConfirmationPage(data: Option<RegistrationData>)
    | UserDashboardPage(user: User)
    | PartnerDashboardPage(partner: Partner)
    | VehicleDetailsPage(vehicle: Vehicle)
    | ProfilePage(profile: User)

  /** `renderCurrentView`: a page per view, the home page when its session value is missing. */
  function Render(s: State): Page {
    match s.currentView
    case Vehicles => VehiclesPage
    case Materials => MaterialsPage
    case About => AboutPage
    case Contact => ContactPage
    case SignUp => SignUpPage
    case Confirmation => ConfirmationPage(s.registrationData)
    case Dashboard => if s.user.Some? then UserDashboardPage(s.user.value) else HomePage
    case PartnerDashboard => if s.partner.Some? then PartnerDashboardPage(s.partner.value) else HomePage
    case VehicleDetails =>
      if s.selectedVehicle.Some? then VehicleDetailsPage(s.selectedVehicle.value) else HomePage
    case Profile => if s.user.Some? then ProfilePage(s.user.value) else HomePage
    case Home => HomePage
  }

  /** The views whose page needs a value the session may lack. */
  predicate MissingSessionValue(s: State) {
    || (s.currentView in {Dashboard, Profile} && s.user.None?)
    || (s.currentView == PartnerDashboard && s.partner.None?)
    || (s.currentView == VehicleDetails && s.selectedVehicle.None?)
  }

  /** The home page is shown exactly for the home view and for the three fallbacks. */
  lemma RenderFallsBackHome(s: State)
    ensures Render(s) == HomePage <==> s.currentView == Home || MissingSessionValue(s)
  {
  }

  /** A page never shows a session value other than the one held in the state. */
  lemma RenderShowsHeldValues(s: State)
    ensures Render(s).UserDashboardPage? ==> s.currentView == Dashboard && s.user == Some(Render(s).user)
    ensures Render(s).ProfilePage? ==> s.currentView == Profile && s.user == Some(Render(s).profile)
    ensures Render(s).PartnerDashboardPage? ==>
      s.currentView == PartnerDashboard && s.partner == Some(Render(s).partner)
    ensures Render(s).VehicleDetailsPage? ==>
      s.currentView == VehicleDetails && s.selectedVehicle == Some(Render(s).vehicle)
  {
  }

  /** The view whose `case` of `renderCurrentView` returns a page of this kind. */
  function ViewOf(p: Page): View {
    match p
    case HomePage => Home
    case VehiclesPage => Vehicles
    case MaterialsPage => Materials
    case AboutPage => About
    case ContactPage => Contact
    case SignUpPage => SignUp
    case ConfirmationPage(_) => Confirmation
    case UserDashboardPage(_) => Dashboard
    case PartnerDashboardPage(_) => PartnerDashboard
    case VehicleDetailsPage(_) => VehicleDetails
    case ProfilePage(_) => Profile
  }

  /** Each view other than home selects its own page once its session value is present. */
  lemma RenderSelectsView(s: State)
    requires s.currentView != Home && !MissingSessionValue(s)
    ensures Render(s) != HomePage
    ensures ViewOf(Render(s)) == s.currentView
    ensures s.currentView == Confirmation ==> Render(s) == ConfirmationPage(s.registrationData)
  {
  }

  /** The kind of page shown is the current view's, or the home page's on a fallback. */
  lemma RenderPageKind(s: State)
    ensures ViewOf(Render(s)) == if MissingSessionValue(s) then Home else s.currentView
  {
  }

  /** Two different views, each with its session value present, never show the same page. */
  lemma RenderDistinguishesViews(s: State, t: State)
    requires s.currentView != Home && !MissingSessionValue(s)
    requires t.currentView != Home && !MissingSessionValue(t)
    requires s.currentView != t.currentView
    ensures Render(s) != Render(t)
  {
    RenderSelectsView(s);
    RenderSelectsView(t);
  }

  /**
   * A business record confirmed from either wizard signs in a user with no
   * name or phone, because the wizards send `fullName` and `mobileNumber`
   * while the handler reads `name` and `phone`.
   */
  lemma WizardUserLacksNameAndPhone(s: MaterialSupplier.Submission, t: VehicleOwner.Submission, now: string, isoNow: string)
    ensures NewUser(FromSupplier(s), now).name.None? && NewUser(FromSupplier(s), now).phone.None?
    ensures NewUser(FromVehicleOwner(t), now).name.None? && NewUser(FromVehicleOwner(t), now).phone.None?
    ensures NewPartner(FromSupplier(s), now, isoNow).ownerName.None?
    ensures NewPartner(FromSupplier(s), now, isoNow).businessName == ""
    ensures NewPartner(FromVehicleOwner(t), now, isoNow).ownerName.None?
    ensures NewPartner(FromVehicleOwner(t), now, isoNow).businessName == ""
  {
  }

  /** Each wizard's record has a business role, so confirming it leads to a partner account. */
  lemma WizardRecordsAreBusiness(s: MaterialSupplier.Submission, t: VehicleOwner.Submission)
    requires s.role == MaterialSupplier.Role && t.role == VehicleOwner.Role
    ensures IsBusinessRole(FromSupplier(s).role) && IsBusinessRole(FromVehicleOwner(t).role)
  {
  }

  /** Which button the confirmation page reports. */
  datatype ConfirmAction = GoHome | GoDashboard

  /** The component's state hooks and handlers. */
  class App {
    var currentView: View
    var user: Option<User>
    var partner: Option<Partner>
    var isMenuOpen: bool
    var isAuthModalOpen: bool
    var selectedVehicle: Option<Vehicle>
    var registrationData: Option<RegistrationData>
    var isVehicleRegistrationOpen: bool
    var isMaterialRegistrationOpen: bool

    /** The state as one value. */
    function Current(): State
      reads this
    {
      State(currentView, user, partner, isMenuOpen, isAuthModalOpen, selectedVehicle,
            registrationData, isVehicleRegistrationOpen, isMaterialRegistrationOpen)
    }

    constructor ()
      ensures Current() == InitialState
    {
      currentView := Home;
      user := None;
      partner := None;
      isMenuOpen := false;
      isAuthModalOpen := false;
      selectedVehicle := None;
      registrationData := None;
      isVehicleRegistrationOpen := false;
      isMaterialRegistrationOpen := false;
    }

    /** `handleLogin`: sign in, close the modal, show the dashboard. */
    method HandleLogin(userData: User)
      modifies this
      ensures Current() == old(Current()).(user := Some(userData), isAuthModalOpen := false,
                                           currentView := Dashboard)
      ensures Render(Current()) == UserDashboardPage(userData)
    {
      user := Some(userData);
      isAuthModalOpen := false;
      currentView := Dashboard;
    }

    /** `handleLogout`: drop the user and the partner, go home, close the menu. */
    method HandleLogout()
      modifies this
      ensures Current() == old(Current()).(user := None, partner := None, currentView := Home,
                                           isMenuOpen := false)
      ensures Render(Current()) == HomePage
    {
      user := None;
      partner := None;
      currentView := Home;
      isMenuOpen := false;
    }

    /** `handleNavigation`: show the view and close the menu. */
    method HandleNavigation(view: View)
      modifies this
      ensures Current() == old(Current()).(currentView := view, isMenuOpen := false)
    {
      currentView := view;
      isMenuOpen := false;
    }

    /** `handleShowLogin`. */
    method HandleShowLogin()
      modifies this
      ensures Current() == old(Current()).(isAuthModalOpen := true)
    {
      isAuthModalOpen := true;
    }

    /** `handleShowSignUp`. */
    method HandleShowSignUp()
      modifies this
      ensures Current() == old(Current()).(currentView := SignUp)
    {
      currentView := SignUp;
    }

    /** `handleShowVehicleRegistration`. */
    method HandleShowVehicleRegistration()
      modifies this
      ensures Current() == old(Current()).(isVehicleRegistrationOpen := true)
    {
      isVehicleRegistrationOpen := true;
    }

    /** `handleShowMaterialRegistration`. */
    method HandleShowMaterialRegistration()
      modifies this
      ensures Current() == old(Current()).(isMaterialRegistrationOpen := true)
    {
      isMaterialRegistrationOpen := true;
    }

    /** `handleRegistration`: keep the sign-up record and show the confirmation page. */
    method HandleRegistration(data: RegistrationData)
      modifies this
      ensures Current() == old(Current()).(registrationData := Some(data), currentView := Confirmation)
      ensures Render(Current()) == ConfirmationPage(Some(data))
    {
      registrationData := Some(data);
      currentView := Confirmation;
    }

    /**
     * `handleConfirmationAction`. Home goes home; the dashboard signs in a
     * user built from the record and, for a business role, a pending partner
     * shown on the partner dashboard. The user's and the partner's ids come
     * from two separate clock reads, `now` and `partnerNow`, which need not
     * agree. Both branches clear the record. With no record
     * the dashboard branch reads a key of `null` and throws before any update:
     * `ok` is false and nothing changes.
     */
    method HandleConfirmationAction(action: ConfirmAction, now: string, partnerNow: string, isoNow: string)
      returns (ok: bool)
      modifies this
      ensures ok <==> action == GoHome || old(registrationData).Some?
      ensures !ok ==> Current() == old(Current())
      ensures ok && action == GoHome ==>
        Current() == old(Current()).(currentView := Home, registrationData := None)
      ensures ok && action == GoDashboard && IsBusinessRole(old(registrationData).value.role) ==>
        Current() == old(Current()).(
          user := Some(NewUser(old(registrationData).value, now)),
          partner := Some(NewPartner(old(registrationData).value, partnerNow, isoNow)),
          currentView := PartnerDashboard, registrationData := None)
      ensures ok && action == GoDashboard && !IsBusinessRole(old(registrationData).value.role) ==>
        Current() == old(Current()).(
          user := Some(NewUser(old(registrationData).value, now)),
          currentView := Dashboard, registrationData := None)
    {
      if action == GoHome {
        currentView := Home;
      } else {
        if registrationData.None? {
          return false;
        }
        var data := registrationData.value;
        user := Some(NewUser(data, now));
        if IsBusinessRole(data.role) {
          var newPartner := NewPartner(data, partnerNow, isoNow);
          partner := Some(newPartner);
          currentView := PartnerDashboard;
        } else {
          currentView := Dashboard;
        }
      }
      registrationData := None;
      ok := true;
    }

    /** `handleVehicleOwnerRegistration`: keep the record, close that wizard, confirm. */
    method HandleVehicleOwnerRegistration(data: VehicleOwner.Submission)
      modifies this
      ensures Current() == old(Current()).(registrationData := Some(FromVehicleOwner(data)),
                                           isVehicleRegistrationOpen := false,
                                           currentView := Confirmation)
    {
      registrationData := Some(FromVehicleOwner(data));
      isVehicleRegistrationOpen := false;
      currentView := Confirmation;
    }

    /** `handleMaterialSupplierRegistration`: keep the record, close that wizard, confirm. */
    method HandleMaterialSupplierRegistration(data: MaterialSupplier.Submission)
      modifies this
      ensures Current() == old(Current()).(registrationData := Some(FromSupplier(data)),
                                           isMaterialRegistrationOpen := false,
                                           currentView := Confirmation)
    {
      registrationData := Some(FromSupplier(data));
      isMaterialRegistrationOpen := false;
      currentView := Confirmation;
    }

    /** `handleVehicleSelect`: remember the vehicle and show its details. */
    method HandleVehicleSelect(vehicle: Vehicle)
      modifies this
      ensures Current() == old(Current()).(selectedVehicle := Some(vehicle), currentView := VehicleDetails)
      ensures Render(Current()) == VehicleDetailsPage(vehicle)
    {
      selectedVehicle := Some(vehicle);
      currentView := VehicleDetails;
    }

    /** `handleUpdateProfile`: merge the patch over the user, if there is one. */
    method HandleUpdateProfile(updatedData: UserPatch)
      modifies this
      ensures old(user).Some? ==> Current() == old(Current()).(user := Some(Merge(old(user).value, updatedData)))
      ensures old(user).None? ==> Current() == old(Current())
    {
      if user.Some? {
        user := Some(Merge(user.value, updatedData));
      }
    }

    /** The header's menu button. */
    method ToggleMenu()
      modifies this
      ensures Current() == old(Current()).(isMenuOpen := !old(isMenuOpen))
    {
      isMenuOpen := !isMenuOpen;
    }

    /** The auth modal's close button. */
    method CloseAuthModal()
      modifies this
      ensures Current() == old(Current()).(isAuthModalOpen := false)
    {
      isAuthModalOpen := false;
    }

    /** The vehicle-owner wizard's close button; the wizard keeps its own state. */
    method CloseVehicleRegistration()
      modifies this
      ensures Current() == old(Current()).(isVehicleRegistrationOpen := false)
    {
      isVehicleRegistrationOpen := false;
    }

    /** The supplier wizard's close button; the wizard keeps its own state. */
    method CloseMaterialRegistration()
      modifies this
      ensures Current() == old(Current()).(isMaterialRegistrationOpen := false)
    {
      isMaterialRegistrationOpen := false;
    }

    /** The back buttons of the vehicle-details and profile pages. */
    method BackToDashboard()
      modifies this
      ensures Current() == old(Current()).(currentView := Dashboard)
    {
      currentView := Dashboard;
    }
  }
}
