/** The decision logic of the views: where `signin` sends a user, and the
    "total duration" figure the home page and the organisation dashboard
    show. Authentication and database lookups arrive as inputs. */
module Views {
  import opened Wrappers
  import opened Models

  // ---------------------------------------------------------------------
  // Sign-in
  // ---------------------------------------------------------------------

  const InvalidCredentials: string := "Invalid credentials."
  const NotVerified: string := "Account is not verified. Please check your emails and verify your account first."
  const NoDesignatedRole: string := "Contact the administrator for a designated role."

  /** What the view answers: a redirect to a named route, or the login page
      rendered with the context keys `error_message` and `login_error`. */
  datatype Response = Redirect(route: string) | RenderLogin(errorMessage: Option<string>, loginError: Option<string>)

  /** The response together with whether the user was logged in. */
  datatype SigninOutcome = SigninOutcome(loggedIn: bool, response: Response)

  /** The dashboard route of each role that has one regardless of an
      organisation profile. */
  const RoleRoutes: map<string, string> :=
    map["Super Admin" := "super-dash", "Admin" := "admin-cop", "Activist" := "activist"]

  /** Where a verified user of `role` belongs: organisations go to their
      dashboard once their profile row exists and to the profile form before
      that; the other roles by `RoleRoutes`; any other role has no page. */
  function Destination(role: string, hasOrganisation: bool): (r: Option<string>)
    ensures r.Some? <==> role in {"Super Admin", "Admin", "Activist", "Organisation"}
    ensures role == "Organisation" ==> r == Some(if hasOrganisation then "org_dashbord" else "org_profile")
    ensures role == "Super Admin" ==> r == Some("super-dash")
    ensures role == "Admin" ==> r == Some("admin-cop")
    ensures role == "Activist" ==> r == Some("activist")
  {
    if role == "Organisation" then Some(if hasOrganisation then "org_dashbord" else "org_profile")
    else if role in RoleRoutes then Some(RoleRoutes[role])
    else None
  }

  /** `signin`. `isPost` is the request method, `user` what `authenticate`
      returned for the posted credentials, `hasOrganisation` whether an
      organisation row exists for that user. Only a verified user is logged
      in; a logged-in user is redirected to `Destination` of its role, or
      shown `NoDesignatedRole` when the role has none. */
  function Signin(isPost: bool, user: Option<CustomUser>, hasOrganisation: bool): (r: SigninOutcome)
    ensures !isPost ==> r == SigninOutcome(false, RenderLogin(None, None))
    ensures r.loggedIn <==> isPost && user.Some? && user.value.isVerified
    ensures isPost && user.None? ==> r.response == RenderLogin(None, Some(InvalidCredentials))
    ensures isPost && user.Some? && !user.value.isVerified ==> r.response == RenderLogin(None, Some(NotVerified))
    ensures r.response.Redirect? ==> r.loggedIn
    ensures r.loggedIn ==>
      var dest := Destination(user.value.role, hasOrganisation);
      && (dest.Some? ==> r.response == Redirect(dest.value))
      && (dest.None? ==> r.response == RenderLogin(Some(NoDesignatedRole), None))
  {
    if !isPost then SigninOutcome(false, RenderLogin(None, None))
    else if user.None? then SigninOutcome(false, RenderLogin(None, Some(InvalidCredentials)))
    else if !user.value.isVerified then SigninOutcome(false, RenderLogin(None, Some(NotVerified)))
    else
      var role := user.value.role;
      var response :=
        if role == "Super Admin" then Redirect("super-dash")
        else if role == "Admin" then Redirect("admin-cop")
        else if role == "Organisation" then
          (if hasOrganisation then Redirect("org_dashbord") else Redirect("org_profile"))
        else if role == "Activist" then Redirect("activist")
        else RenderLogin(Some(NoDesignatedRole), None);
      SigninOutcome(true, response)
  }

  /** The role table spelled out: each verified role lands on its own page,
      and a blank or unknown role gets the designated-role message. */
  lemma SigninRoutes(u: CustomUser, hasOrganisation: bool)
    requires u.isVerified
    ensures u.role == "Super Admin" ==> Signin(true, Some(u), hasOrganisation).response == Redirect("super-dash")
    ensures u.role == "Admin" ==> Signin(true, Some(u), hasOrganisation).response == Redirect("admin-cop")
    ensures u.role == "Activist" ==> Signin(true, Some(u), hasOrganisation).response == Redirect("activist")
    ensures u.role == "Organisation" ==>
      Signin(true, Some(u), hasOrganisation).response == Redirect(if hasOrganisation then "org_dashbord" else "org_profile")
    ensures u.role !in {"Super Admin", "Admin", "Activist", "Organisation"} ==>
      Signin(true, Some(u), hasOrganisation) == SigninOutcome(true, RenderLogin(Some(NoDesignatedRole), None))
  {
  }

  /** The organisation lookup only matters to users whose role is
      'Organisation'. */
  lemma OrganisationLookupOnlyForOrganisations(isPost: bool, user: Option<CustomUser>)
    requires user.Some? ==> user.value.role != "Organisation"
    ensures Signin(isPost, user, true) == Signin(isPost, user, false)
  {
  }

  // ---------------------------------------------------------------------
  // Total duration of reported events
  // ---------------------------------------------------------------------

  /** Python's `int(seconds / 3600)`: whole hours, truncated toward zero
      (Dafny's own division rounds toward negative infinity instead). */
  function TruncHours(seconds: int): (h: int)
    ensures seconds >= 0 ==> 0 <= h && h * 3600 <= seconds < (h + 1) * 3600
    ensures seconds < 0 ==> h <= 0 && (h - 1) * 3600 < seconds <= h * 3600
  {
    if seconds >= 0 then seconds / 3600 else -((-seconds) / 3600)
  }

  /** The summed durations of the rows, in seconds. */
  function SumDurations(rows: seq<Application>): int
  {
    if rows == [] then 0 else Duration(rows[0]) + SumDurations(rows[1..])
  }

  lemma {:induction false} SumAppend(s: seq<Application>, t: seq<Application>)
    ensures SumDurations(s + t) == SumDurations(s) + SumDurations(t)
  {
    if s != [] {
      assert (s + t)[1..] == s[1..] + t;
      SumAppend(s[1..], t);
    } else {
      assert s + t == t;
    }
  }

  /** The sum does not depend on the order the database returns the rows in. */
  lemma {:induction false} SumPermutation(s: seq<Application>, t: seq<Application>)
    requires multiset(s) == multiset(t)
    ensures SumDurations(s) == SumDurations(t)
    decreases |s|
  {
    if s == [] {
      assert |t| == |multiset(t)| == 0;
    } else {
      var x := s[0];
      assert x in multiset(t);
      var i :| 0 <= i < |t| && t[i] == x;
      var rest := t[..i] + t[i + 1..];
      assert t == t[..i] + ([x] + t[i + 1..]);
      SumAppend(t[..i], [x] + t[i + 1..]);
      SumAppend([x], t[i + 1..]);
      SumAppend(t[..i], t[i + 1..]);
      assert s == [x] + s[1..];
      assert multiset(s) == multiset{x} + multiset(s[1..]);
      assert multiset(t) == multiset(t[..i]) + multiset{x} + multiset(t[i + 1..]);
      assert multiset(rest) == multiset(t[..i]) + multiset(t[i + 1..]);
      assert multiset(s[1..]) == multiset(s) - multiset{x};
      assert multiset(rest) == multiset(t) - multiset{x};
      SumPermutation(s[1..], rest);
    }
  }

  /** With no inverted window among the rows, the sum is not negative. */
  lemma {:induction false} SumNonNegative(rows: seq<Application>)
    requires forall i :: 0 <= i < |rows| ==> rows[i].start <= rows[i].end
    ensures SumDurations(rows) >= 0
  {
    if rows != [] {
      SumNonNegative(rows[1..]);
    }
  }

  /** The accumulation loop of `index`, `cop_admin` and `org_dashboard`:
      the running total of end minus start over the rows, in seconds. */
  method SumRowDurations(rows: seq<Application>) returns (total: int)
    ensures total == SumDurations(rows)
    ensures (forall i :: 0 <= i < |rows| ==> rows[i].start <= rows[i].end) ==> total >= 0
  {
    total := 0;
    for i := 0 to |rows|
      invariant total == SumDurations(rows[..i])
    {
      assert rows[..i + 1] == rows[..i] + [rows[i]];
      SumAppend(rows[..i], [rows[i]]);
      total := total + (rows[i].end - rows[i].start);
    }
    assert rows[..|rows|] == rows;
    if forall i :: 0 <= i < |rows| ==> rows[i].start <= rows[i].end {
      SumNonNegative(rows);
    }
  }

  // The query `filter(posteventreport__isnull=False)` joins applications to
  // their reports without `distinct()`: an application with k reports is
  // iterated k times, one with none is skipped.

  /** How many reports refer to the application with this id. */
  function ReportCount(id: int, reports: seq<PostEventReport>): (n: nat)
    ensures n <= |reports|
    ensures n == 0 <==> forall i :: 0 <= i < |reports| ==> reports[i].event != id
    ensures n == multiset(reports)[PostEventReport(id)]
  {
    if reports == [] then 0
    else
      assert reports == [reports[0]] + reports[1..];
      (if reports[0].event == id then 1 else 0) + ReportCount(id, reports[1..])
  }

  /** `k` copies of one row. */
  function Repeat(a: Application, k: nat): (r: seq<Application>)
    ensures |r| == k
    ensures forall i :: 0 <= i < k ==> r[i] == a
  {
    if k == 0 then [] else [a] + Repeat(a, k - 1)
  }

  /** The joined rows in table order: each application once per report
      that refers to it. */
  function ReportedRows(apps: seq<Application>, reports: seq<PostEventReport>): (r: seq<Application>)
    ensures forall row :: row in r ==> row in apps && ReportCount(row.id, reports) > 0
    ensures forall i :: 0 <= i < |apps| && ReportCount(apps[i].id, reports) > 0 ==> apps[i] in r
  {
    if apps == [] then []
    else Repeat(apps[0], ReportCount(apps[0].id, reports)) + ReportedRows(apps[1..], reports)
  }

  lemma {:induction false} RepeatMultiset(a: Application, k: nat)
    ensures multiset(Repeat(a, k)) == multiset{}[a := k]
  {
    if k > 0 {
      RepeatMultiset(a, k - 1);
    }
  }

  /** The joined rows of a non-empty table: the head's copies, then the
      tail's rows, counted for one application `a`. */
  lemma JoinHeadCount(apps: seq<Application>, reports: seq<PostEventReport>, a: Application)
    requires apps != []
    ensures multiset(ReportedRows(apps, reports))[a]
      == (if apps[0] == a then ReportCount(a.id, reports) else 0) + multiset(ReportedRows(apps[1..], reports))[a]
  {
    var k := ReportCount(apps[0].id, reports);
    var tail := ReportedRows(apps[1..], reports);
    RepeatMultiset(apps[0], k);
    assert ReportedRows(apps, reports) == Repeat(apps[0], k) + tail;
    assert multiset(ReportedRows(apps, reports)) == multiset(Repeat(apps[0], k)) + multiset(tail);
  }

  /** Occurrences of `a` in a non-empty table: the head's, then the tail's. */
  lemma TableHeadCount(apps: seq<Application>, a: Application)
    requires apps != []
    ensures multiset(apps)[a] == (if apps[0] == a then 1 else 0) + multiset(apps[1..])[a]
  {
    assert apps == [apps[0]] + apps[1..];
    assert multiset(apps) == multiset{apps[0]} + multiset(apps[1..]);
  }

  lemma HeadProduct(h: int, m: int, n: int)
    ensures (h + m) * n == h * n + m * n
  {
  }

  /** The join lists each application as many times as it occurs in the
      table times the number of reports that refer to it: twice-reported
      applications twice, unreported ones not at all. */
  lemma {:induction false} ReportedRowsMultiplicity(apps: seq<Application>, reports: seq<PostEventReport>, a: Application)
    ensures multiset(ReportedRows(apps, reports))[a] == multiset(apps)[a] * ReportCount(a.id, reports)
  {
    if apps != [] {
      ReportedRowsMultiplicity(apps[1..], reports, a);
      JoinHeadCount(apps, reports, a);
      TableHeadCount(apps, a);
      HeadProduct(if apps[0] == a then 1 else 0, multiset(apps[1..])[a], ReportCount(a.id, reports));
    }
  }

  /** Reference total: each application's duration weighted by the number of
      its reports. */
  function WeightedDurations(apps: seq<Application>, reports: seq<PostEventReport>): int
  {
    if apps == [] then 0
    else Duration(apps[0]) * ReportCount(apps[0].id, reports) + WeightedDurations(apps[1..], reports)
  }

  lemma {:induction false} SumRepeat(a: Application, k: nat)
    ensures SumDurations(Repeat(a, k)) == k * Duration(a)
  {
    if k > 0 {
      SumRepeat(a, k - 1);
    }
  }

  /** Summing the joined rows counts each application's duration once per
      report: unreported applications add nothing, twice-reported ones
      add twice. */
  lemma {:induction false} ReportedRowsSum(apps: seq<Application>, reports: seq<PostEventReport>)
    ensures SumDurations(ReportedRows(apps, reports)) == WeightedDurations(apps, reports)
  {
    if apps != [] {
      var k := ReportCount(apps[0].id, reports);
      SumAppend(Repeat(apps[0], k), ReportedRows(apps[1..], reports));
      SumRepeat(apps[0], k);
      ReportedRowsSum(apps[1..], reports);
    }
  }

  /** With no inverted window among the applications, the weighted total is
      not negative. */
  lemma {:induction false} WeightedNonNegative(apps: seq<Application>, reports: seq<PostEventReport>)
    requires forall i :: 0 <= i < |apps| ==> apps[i].start <= apps[i].end
    ensures WeightedDurations(apps, reports) >= 0
  {
    if apps != [] {
      WeightedNonNegative(apps[1..], reports);
      assert Duration(apps[0]) * ReportCount(apps[0].id, reports) >= 0;
    }
  }

  /** `total_duration` of the home page (`index`): the accumulation loop
      over the joined rows, in whatever order the database returns them,
      then whole hours. The result is the truncated report-weighted total,
      whatever that order. */
  method IndexTotalDuration(apps: seq<Application>, reports: seq<PostEventReport>, rows: seq<Application>)
    returns (hours: int)
    requires multiset(rows) == multiset(ReportedRows(apps, reports))
    ensures hours == TruncHours(WeightedDurations(apps, reports))
    ensures (forall i :: 0 <= i < |apps| ==> apps[i].start <= apps[i].end) ==> hours >= 0
  {
    var total := SumRowDurations(rows);
    SumPermutation(rows, ReportedRows(apps, reports));
    ReportedRowsSum(apps, reports);
    if forall i :: 0 <= i < |apps| ==> apps[i].start <= apps[i].end {
      WeightedNonNegative(apps, reports);
    }
    hours := TruncHours(total);
  }

  /** The exception `org_dashboard` raises when the user has no organisation
      row: its page context reads `report`, which was never assigned. Only
      the exception class and the variable are modelled; the message text
      varies between Python versions. */
  const UnboundReport: string := "UnboundLocalError: report"

  /** `total_duration` of the organisation dashboard. It repeats the loop of
      `index` over the reported applications of every organisation, not only
      the signed-in one's. Without an organisation row the view raises
      `UnboundReport` before rendering. */
  method OrgDashboardTotalDuration(org: Option<Organisation>, apps: seq<Application>,
                                   reports: seq<PostEventReport>, rows: seq<Application>)
    returns (r: Result<int>)
    requires multiset(rows) == multiset(ReportedRows(apps, reports))
    ensures org.None? ==> r == Err(UnboundReport)
    ensures org.Some? ==> r == Ok(TruncHours(WeightedDurations(apps, reports)))
  {
    if org.None? {
      return Err(UnboundReport);
    }
    var total := SumRowDurations(rows);
    SumPermutation(rows, ReportedRows(apps, reports));
    ReportedRowsSum(apps, reports);
    r := Ok(TruncHours(total));
  }
}
