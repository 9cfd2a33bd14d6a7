# Side-event back end: verified model of its decision logic

This project models the decision logic of a conference back end. Organisations
and activists register there. Organisations submit side-event applications
for time slots; neither application form checks the organisation's own
review status first. Administrators review the applications, and
reports on held events are published. Most of the back end is database access,
template rendering and e-mail. The model covers the parts that decide something:

- `EventForms` (backend/forms.py) holds the schedule-overlap rule of the two
  application forms. A proposed window `[start, end)` is refused with
  "This event overlaps with an existing event. Please change another time"
  when any stored application's window intersects it. The test is
  `stored.start < end && stored.end > start`, so windows that only touch do
  not conflict. All stored applications count, whatever their status. The
  table also includes the record being edited. The one exemption: an edit
  that keeps the record's stored start and end unchanged is accepted. A
  missing start or end skips the check. Accepted data is returned as it came in.
- `Models` (backend/models.py) holds the record types and their defaults: new
  applications and organisations are Pending, new invoices Unpaid. It also
  holds the 2 MiB upload validator, the `Duration` property, and the user
  manager. The user manager refuses a falsy e-mail and fills in the staff,
  superuser and verified flags of a superuser only when the caller left them
  out.
- `Views` (backend/views.py) holds the `signin` outcome table and the
  "total duration" figure. `signin` decides by authentication result,
  verification, role and whether an organisation row exists. The total
  duration is computed by a loop over reported applications, truncated to
  whole hours as Python's `int()` does, toward zero.
- `Wrappers` holds `Option`, `Result` and `Outcome`, which stand for `None`
  and for raised exceptions.

Times are integer seconds. The database, `authenticate` and the
organisation-exists lookup are inputs to the model.

Two details of the code are modelled as written:

- The reported-applications query joins applications to their reports
  without `distinct()`. An application with two reports is therefore counted
  twice in the total, and one with no report not at all (`ReportedRowsSum`).
  The database's row order does not matter (`SumPermutation`).
- The organisation dashboard sums the reported applications of every
  organisation, not only the signed-in one's. Without an organisation row it
  fails before rendering, because its page context names values that were
  never assigned. `OrgDashboardTotalDuration` returns that exception as an
  `Err` then.

The overlap query filters nothing by identifier, so the edited record's own
row stays in the table it is checked against. A conflict raises only the
fixed message and carries no rows.

## Model

| member | source | states |
|---|---|---|
| `EventForms.Overlapping` | backend/forms.py:166-169 | the query set holds exactly the stored rows whose window satisfies `start < candEnd && end > candStart`: every such row is in it and no other, and it is no larger than the table |
| `EventForms.OverlappingNonEmptyIff` | backend/forms.py:166-175 | `.exists()` on the query set holds iff some stored row intersects the candidate window |
| `EventForms.EventFormClean` | backend/forms.py:158-178 | refused (with exactly the overlap message) iff both times are present, the edit is not unchanged, and some stored row of any status intersects; otherwise the input data comes back unchanged; a missing time always passes |
| `EventForms.OrgEventFormClean` | backend/forms.py:221-241 | decides every input exactly as `EventForm.clean` |
| `EventForms.IntersectsSymmetric` | backend/forms.py:166-169 | the half-open intersection test is symmetric |
| `EventForms.TouchingAccepted` | backend/forms.py:166-169 | a window that every stored row ends before or at, or starts at or after, is accepted (touching endpoints do not conflict) |
| `EventForms.UnchangedEditAccepted` | backend/forms.py:171-173 | an edit whose stored start and end equal the candidate is accepted even when other rows overlap |
| `EventForms.MovedWindowHitsItself` | backend/forms.py:166-175 | moving either endpoint loses the exemption; the record's own old row, still in the table, refuses a new window that intersects it |
| `EventForms.StatusIgnored` | backend/forms.py:166-169 | two tables with the same windows give the same verdict whatever their statuses, so Declined rows block as Approved ones |
| `EventForms.ContainingWindowRefused` | backend/forms.py:166-176 | a candidate that contains a stored non-empty window is refused unless it is the unchanged edit |
| `EventForms.Scenarios` | backend/forms.py:164-178 | worked cases: [11:00,13:00) against [10:00,12:00) is refused, [12:00,13:00) is accepted, an unchanged edit beside an overlapping Declined row is accepted |
| `Models.ValidateImageSize` | backend/models.py:13-18 | fails, with the size message, iff the size exceeds 2097152 bytes; exactly 2 MiB passes |
| `Models.Duration` | backend/models.py:371-377 | start plus duration is end; the duration is non-negative iff start <= end |
| `Models.NewApplication` | backend/models.py:361-363 | a new application is Pending and keeps the given window |
| `Models.NewOrganisation` | backend/models.py:165 | a new organisation is Pending |
| `Models.NewInvoice` | backend/models.py:395 | a new invoice is Unpaid |
| `Models.BuildUser` | backend/models.py:43-49 | keywords given by the caller (name, role and the four flags) win; each field left out takes the model default (active, not staff, not superuser, not verified); the password is usable iff one was given |
| `Models.NewUserDefaults` | backend/models.py:47-49 | a user made without keywords is active, not staff, not superuser and not verified |
| `Models.SetDefault` | backend/models.py:31-33 | `setdefault` keeps a value already given and stores the default otherwise |
| `Models.SuperuserExtraFields` | backend/models.py:30-33 | after the three `setdefault` calls the staff, superuser and verified flags are present, true where the caller gave none, the caller's where given; other keywords are unchanged |
| `Models.SuperuserFlags` | backend/models.py:30-34 | a superuser made without keywords is staff, superuser, verified and active; explicit flags are kept |
| `Models.UserManager.CreateUser` | backend/models.py:21-28 | a falsy e-mail raises "The Email field must be set" and stores nothing; otherwise exactly one user, built from the normalised e-mail, password and keywords, is appended and returned |
| `Models.UserManager.CreateSuperuser` | backend/models.py:30-34 | as `CreateUser`, with the keywords after the superuser defaults |
| `Views.Signin` | backend/views.py:124-158 | logs in iff the request is a POST and the authenticated user is verified; failed authentication gives 'Invalid credentials.', an unverified user the not-verified message, neither logged in; a logged-in user is redirected to its role's page or gets the designated-role message; a GET renders an empty context |
| `Views.Destination` | backend/views.py:137-150 | a verified role has a page iff it is one of 'Super Admin', 'Admin', 'Activist', 'Organisation': super-dash, admin-cop, activist, and org_dashbord or org_profile by whether the organisation row exists |
| `Views.SigninRoutes` | backend/views.py:136-150 | 'Super Admin' to super-dash, 'Admin' to admin-cop, 'Activist' to activist, 'Organisation' to org_dashbord or org_profile by whether its row exists, any other role the designated-role message |
| `Views.OrganisationLookupOnlyForOrganisations` | backend/views.py:142-146 | the organisation-exists lookup changes nothing for users whose role is not 'Organisation' |
| `Views.TruncHours` | backend/views.py:100-101 | whole hours truncated toward zero: for a non-negative total h*3600 <= s < (h+1)*3600, for a negative one (h-1)*3600 < s <= h*3600 |
| `Views.SumAppend` | backend/views.py:97-99 | the summed durations of two row lists joined are the sum of their sums |
| `Views.SumPermutation` | backend/views.py:98-99 | any reordering of the rows gives the same total |
| `Views.SumNonNegative` | backend/views.py:97-99 | the total is non-negative when no row ends before it starts |
| `Views.SumRowDurations` | backend/views.py:97-99 | the loop's running total ends as the sum of end minus start over all rows, non-negative when no window is inverted |
| `Views.SumRepeat` | backend/views.py:98-99 | k copies of one row sum to k times its duration |
| `Views.ReportCount` | backend/views.py:98 | the number of reports joined to an application is the number of reports whose event is its id (its multiplicity among the reports), zero iff no report refers to it |
| `Views.ReportedRows` | backend/views.py:98 | the join yields only applications that have a report, and every application that has one; how often each appears is `ReportedRowsMultiplicity` |
| `Views.ReportedRowsMultiplicity` | backend/views.py:98 | each application appears in the join as often as it occurs in the table times the number of reports referring to it: twice with two reports, never with none |
| `Views.ReportedRowsSum` | backend/views.py:98-99 | summing the joined rows counts each application once per report referring to it |
| `Views.WeightedNonNegative` | backend/views.py:97-101 | the report-weighted total is non-negative when no window is inverted |
| `Views.IndexTotalDuration` | backend/views.py:97-101 | for the joined rows in any order, the home page's `total_duration` is the truncated hours of the report-weighted total over all applications, non-negative when no window is inverted |
| `Views.OrgDashboardTotalDuration` | backend/views.py:522-558 | with an organisation row, the same figure over every organisation's reported applications; without one, the view raises `UnboundLocalError` on `report` (`Err`) |

## Left out

- The database queries, `.exists()`, `super().clean()` field parsing, widgets and labels are framework calls. The stored applications, the join rows and the organisation-exists answer are inputs.
- The check-then-save race between two concurrent submissions is a concurrency issue and is not modelled.
- `send_mail`, `send_verification_email`, `send_verification`, token creation and checking, and base64 user-id encoding are e-mail and library calls.
- File and image uploads: only the size comparison of `validate_image_size` is modelled.
- `cop_admin` divides the same seconds total by 3600 as a float and shows the fraction. Only the shared accumulation (`SumRowDurations`) is modelled, not floating point.
- Views.SumRowDurations: the source adds up the total in a `timedelta`, which raises `OverflowError` once the running total passes ±999,999,999 days; the model's integer sum has no bound, so it returns a figure where the view raises.
- Views.TruncHours: `index` and `org_dashboard` divide the float `total_seconds()` by 3600. Within the `timedelta` range that division truncates exactly as `TruncHours` does. Sub-second parts of the stored times are not modelled.
- backend/middleware.py is session plumbing tied to the wall clock. One quirk: it compares `timedelta.seconds`, which ignores whole days, so a session idle for more than a day can look fresh.
- backend/urls.py and backend/admin.py are route and admin configuration with no logic.
- Template rendering, HTTP redirects and the messages framework: a response is modelled as a route name or the login page's two context keys.
- The other views (registration, activation, profile and application CRUD, invoices, announcements, reports) are database and template plumbing.
- Models.UserManager.CreateUser: `normalize_email` is framework code and stays an opaque function. The unique-email constraint at save time, password hashing, and the `TypeError` for unknown keyword arguments are not modelled; `ExtraFields` lists only the model's own fields.
- Views.Signin: a POST without `username` or `password` keys fails inside the framework before `authenticate`, and that path is not modelled. The `Profile.DoesNotExist` handler cannot be reached, because reading `user.role` touches no profile. The session effects of `login` are modelled as the `loggedIn` flag.
