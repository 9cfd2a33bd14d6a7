/** The record types of the side-event back end, their field defaults, the
    upload size validator and the user manager that creates accounts.
    Times are integer seconds. */
module Models {
  import opened Wrappers

  // ---------------------------------------------------------------------
  // Upload size limit
  // ---------------------------------------------------------------------

  /** The largest accepted upload, two mebibytes. */
  const MaxUploadSize: nat := 2 * 1024 * 1024

  const ImageTooLarge: string := "The uploaded image is too large. The maximum file size is 2MB."

  /** The validator attached to logos, certificates, fliers, announcement
      images and payment proofs: a file is refused exactly when it is larger
      than 2 MiB, so a file of exactly 2 MiB passes. */
  function ValidateImageSize(size: nat): (r: Outcome)
    ensures r.Fail? <==> size > 2097152
    ensures r.Fail? ==> r.error == ImageTooLarge
  {
    if size > MaxUploadSize then Fail(ImageTooLarge) else Pass
  }

  // ---------------------------------------------------------------------
  // Side-event applications, organisations and invoices
  // ---------------------------------------------------------------------

  /** Review status of a side-event application ('Pending', 'Approved', 'Declined'). */
  datatype ApplicationStatus = Pending | Approved | Declined

  /** Review status of an organisation. Its choices spell the refusal
      'Decline', not 'Declined' as applications do. */
  datatype OrganisationStatus = OrgPending | OrgDecline | OrgApproved

  /** Payment status of an invoice. */
  datatype PaymentStatus = Unpaid | Paid | Overdue

  /** A stored side-event application: its key, its organisation, its window
      and its review status. */
  datatype Application = Application(id: int, org: int, start: int, end: int, status: ApplicationStatus)

  /** An organisation profile, owned by one user. */
  datatype Organisation = Organisation(user: int, status: OrganisationStatus)

  /** An invoice raised for one application. */
  datatype Invoice = Invoice(application: int, amountDue: int, paymentStatus: PaymentStatus)

  /** A post-event report, filed against one application. */
  datatype PostEventReport = PostEventReport(event: int)

  /** The `Duration` property: how long the event runs, in seconds. */
  function Duration(a: Application): (d: int)
    ensures a.start + d == a.end
    ensures d >= 0 <==> a.start <= a.end
  {
    a.end - a.start
  }

  /** A freshly created application starts as Pending with the window it was
      given. */
  function NewApplication(id: int, org: int, start: int, end: int): (a: Application)
    ensures a.status == Pending
    ensures a.id == id && a.org == org && a.start == start && a.end == end
    ensures Duration(a) == end - start
  {
    Application(id, org, start, end, Pending)
  }

  /** A freshly created organisation starts as Pending. */
  function NewOrganisation(user: int): (o: Organisation)
    ensures o.status == OrgPending && o.user == user
  {
    Organisation(user, OrgPending)
  }

  /** A freshly created invoice starts Unpaid. */
  function NewInvoice(application: int, amountDue: int): (i: Invoice)
    ensures i.paymentStatus == Unpaid
    ensures i.application == application && i.amountDue == amountDue
  {
    Invoice(application, amountDue, Unpaid)
  }

  // ---------------------------------------------------------------------
  // Users and the user manager
  // ---------------------------------------------------------------------

  /** A user account. `hasUsablePassword` is false when the account was
      created without a password (the password is then marked unusable). */
  datatype CustomUser = CustomUser(
    email: string,
    name: string,
    role: string,
    isActive: bool,
    isStaff: bool,
    isSuperuser: bool,
    isVerified: bool,
    hasUsablePassword: bool)

  /** The keyword arguments a caller may pass on to the user model; `None`
      means the keyword was not given. */
  datatype ExtraFields = ExtraFields(
    name: Option<string>,
    role: Option<string>,
    isActive: Option<bool>,
    isStaff: Option<bool>,
    isSuperuser: Option<bool>,
    isVerified: Option<bool>)

  const NoExtraFields: ExtraFields := ExtraFields(None, None, None, None, None, None)

  const EmailRequired: string := "The Email field must be set"

  /** Python truthiness of the email argument: `None` and `''` are false. */
  predicate EmailGiven(email: Option<string>)
  {
    email.Some? && email.value != []
  }

  /** The user the model builds from an email, a password and keyword
      arguments: every keyword given wins, every other field keeps the
      model's default (blank name and role, active, not staff, not
      superuser, not verified). */
  function BuildUser(email: string, password: Option<string>, extra: ExtraFields): (u: CustomUser)
    ensures u.email == email
    ensures u.hasUsablePassword <==> password.Some?
    ensures extra.isActive.None? ==> u.isActive
    ensures extra.isStaff.None? ==> !u.isStaff
    ensures extra.isSuperuser.None? ==> !u.isSuperuser
    ensures extra.isVerified.None? ==> !u.isVerified
    ensures extra.name.None? ==> u.name == []
    ensures extra.role.None? ==> u.role == []
    ensures extra.name.Some? ==> u.name == extra.name.value
    ensures extra.role.Some? ==> u.role == extra.role.value
    ensures extra.isActive.Some? ==> u.isActive == extra.isActive.value
    ensures extra.isStaff.Some? ==> u.isStaff == extra.isStaff.value
    ensures extra.isSuperuser.Some? ==> u.isSuperuser == extra.isSuperuser.value
    ensures extra.isVerified.Some? ==> u.isVerified == extra.isVerified.value
  {
    CustomUser(
      email,
      extra.name.GetOr(""),
      extra.role.GetOr(""),
      extra.isActive.GetOr(true),
      extra.isStaff.GetOr(false),
      extra.isSuperuser.GetOr(false),
      extra.isVerified.GetOr(false),
      password.Some?)
  }

  /** A user created without keywords is active, not staff, not a superuser
      and not verified, with a blank name and role. */
  lemma NewUserDefaults(email: string, password: Option<string>)
    ensures var u := BuildUser(email, password, NoExtraFields);
      u.isActive && !u.isStaff && !u.isSuperuser && !u.isVerified && u.name == [] && u.role == []
  {
  }

  /** `dict.setdefault` on one keyword: a value already given is kept,
      otherwise `v` is stored. */
  function SetDefault(given: Option<bool>, v: bool): (r: Option<bool>)
    ensures r.Some?
    ensures given.Some? ==> r == given
    ensures given.None? ==> r.value == v
  {
    if given.Some? then given else Some(v)
  }

  /** The keyword arguments `create_superuser` hands on after its three
      `setdefault` calls: staff, superuser and verified default to true,
      and nothing else changes. */
  function SuperuserExtraFields(extra: ExtraFields): (f: ExtraFields)
    ensures f.isStaff.Some? && f.isSuperuser.Some? && f.isVerified.Some?
    ensures extra.isStaff.None? ==> f.isStaff.value
    ensures extra.isSuperuser.None? ==> f.isSuperuser.value
    ensures extra.isVerified.None? ==> f.isVerified.value
    ensures extra.isStaff.Some? ==> f.isStaff == extra.isStaff
    ensures extra.isSuperuser.Some? ==> f.isSuperuser == extra.isSuperuser
    ensures extra.isVerified.Some? ==> f.isVerified == extra.isVerified
    ensures f.name == extra.name && f.role == extra.role && f.isActive == extra.isActive
  {
    extra.(isStaff := SetDefault(extra.isStaff, true),
           isSuperuser := SetDefault(extra.isSuperuser, true),
           isVerified := SetDefault(extra.isVerified, true))
  }

  /** A superuser created without extra keywords is staff, superuser,
      verified and active; a superuser whose caller passed explicit flags
      keeps exactly those flags. */
  lemma SuperuserFlags(email: string, password: Option<string>, extra: ExtraFields)
    ensures var u := BuildUser(email, password, SuperuserExtraFields(NoExtraFields));
      u.isStaff && u.isSuperuser && u.isVerified && u.isActive && u.email == email
    ensures var u := BuildUser(email, password, SuperuserExtraFields(extra));
      && u.isStaff == extra.isStaff.GetOr(true)
      && u.isSuperuser == extra.isSuperuser.GetOr(true)
      && u.isVerified == extra.isVerified.GetOr(true)
  {
  }

  /** The user manager over the table of users. `normalizeEmail` is the
      framework's e-mail normaliser, which this model does not look into. */
  class UserManager {
    const normalizeEmail: string -> string
    var users: seq<CustomUser>

    constructor (normalizeEmail: string -> string)
      ensures this.normalizeEmail == normalizeEmail && users == []
    {
      this.normalizeEmail := normalizeEmail;
      users := [];
    }

    /** `create_user`: a falsy email raises and stores nothing; otherwise the
        normalised email, the password and the keywords make a new user,
        which is saved and returned. */
    method CreateUser(email: Option<string>, password: Option<string>, extra: ExtraFields)
      returns (r: Result<CustomUser>)
      modifies this
      ensures r.Err? <==> !EmailGiven(email)
      ensures r.Err? ==> r.error == EmailRequired && users == old(users)
      ensures r.Ok? ==> r.value == BuildUser(normalizeEmail(email.value), password, extra)
      ensures r.Ok? ==> users == old(users) + [r.value]
    {
      if !EmailGiven(email) {
        return Err(EmailRequired);
      }
      var normalized := normalizeEmail(email.value);
      var user := BuildUser(normalized, None, extra);
      user := user.(hasUsablePassword := password.Some?);
      users := users + [user];
      r := Ok(user);
    }

    /** `create_superuser`: fills in the staff, superuser and verified flags
        the caller left out, then creates the user as `create_user` does. */
    method CreateSuperuser(email: Option<string>, password: Option<string>, extra: ExtraFields)
      returns (r: Result<CustomUser>)
      modifies this
      ensures r.Err? <==> !EmailGiven(email)
      ensures r.Err? ==> r.error == EmailRequired && users == old(users)
      ensures r.Ok? ==> r.value == BuildUser(normalizeEmail(email.value), password, SuperuserExtraFields(extra))
      ensures r.Ok? ==> users == old(users) + [r.value]
    {
      var fields := extra;
      fields := fields.(isStaff := SetDefault(fields.isStaff, true));
      fields := fields.(isSuperuser := SetDefault(fields.isSuperuser, true));
      fields := fields.(isVerified := SetDefault(fields.isVerified, true));
      r := CreateUser(email, password, fields);
    }
  }
}
