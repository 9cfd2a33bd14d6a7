/** The schedule-overlap rule of the two side-event application forms: a
    proposed window [start, end) is refused when it intersects the window of
    any stored application, unless the record being edited keeps exactly the
    window it already has. */
module EventForms {
  import opened Wrappers
  import opened Models

  const OverlapMessage: string := "This event overlaps with an existing event. Please change another time"

  /** The cleaned form data the overlap rule sees: the two times (absent when
      the field was empty or did not parse) and the other fields, which the
      rule passes through untouched. */
  datatype FormData = FormData(startTime: Option<int>, endTime: Option<int>, other: map<string, string>)

  /** The window currently stored for the record the form edits; `None` for
      a new record, whose times are still unset. */
  type StoredWindow = Option<(int, int)>

  /** The database filter `start_time < end && end_time > start`: the stored
      row's window intersects the half-open window [start, end). */
  predicate Intersects(row: Application, start: int, end: int)
  {
    row.start < end && row.end > start
  }

  /** The query set of stored applications that intersect [start, end), in
      table order. Status plays no part. */
  function Overlapping(stored: seq<Application>, start: int, end: int): (q: seq<Application>)
    ensures |q| <= |stored|
    ensures forall row :: row in q ==> row in stored && Intersects(row, start, end)
    ensures forall i :: 0 <= i < |stored| && Intersects(stored[i], start, end) ==> stored[i] in q
  {
    if stored == [] then []
    else if Intersects(stored[0], start, end) then [stored[0]] + Overlapping(stored[1..], start, end)
    else Overlapping(stored[1..], start, end)
  }

  /** Reference definition of a conflict: some stored row intersects the window. */
  ghost predicate Conflicts(stored: seq<Application>, start: int, end: int)
  {
    exists i :: 0 <= i < |stored| && Intersects(stored[i], start, end)
  }

  /** `.exists()` on the query set holds exactly when some stored row
      intersects the window. */
  lemma {:induction false} OverlappingNonEmptyIff(stored: seq<Application>, start: int, end: int)
    ensures Overlapping(stored, start, end) != [] <==> Conflicts(stored, start, end)
  {
    if stored != [] {
      OverlappingNonEmptyIff(stored[1..], start, end);
      if Conflicts(stored, start, end) && !Intersects(stored[0], start, end) {
        var i :| 0 <= i < |stored| && Intersects(stored[i], start, end);
        assert Intersects(stored[1..][i - 1], start, end);
      }
      if Conflicts(stored[1..], start, end) {
        var i :| 0 <= i < |stored[1..]| && Intersects(stored[1..][i], start, end);
        assert Intersects(stored[i + 1], start, end);
      }
    }
  }

  /** The self-exemption: the edited record's stored start and end both
      equal the candidate's. */
  predicate Unchanged(instance: StoredWindow, start: int, end: int)
  {
    instance.Some? && instance.value.0 == start && instance.value.1 == end
  }

  /** `EventForm.clean`. With both times present, an unchanged edit is
      accepted; otherwise the data is refused with `OverlapMessage` when some
      stored application of any status intersects the window. The stored
      applications include the edited record itself. Accepted data is
      returned as it came in. */
  function EventFormClean(data: FormData, instance: StoredWindow, stored: seq<Application>): (r: Result<FormData>)
    ensures r.Ok? ==> r.value == data
    ensures r.Err? ==> r.error == OverlapMessage
    ensures data.startTime.None? || data.endTime.None? ==> r == Ok(data)
    ensures r.Err? <==>
      && data.startTime.Some? && data.endTime.Some?
      && !Unchanged(instance, data.startTime.value, data.endTime.value)
      && Conflicts(stored, data.startTime.value, data.endTime.value)
  {
    if data.startTime.Some? && data.endTime.Some? then
      var start, end := data.startTime.value, data.endTime.value;
      var existing := Overlapping(stored, start, end);
      OverlappingNonEmptyIff(stored, start, end);
      if Unchanged(instance, start, end) then Ok(data)
      else if existing != [] then Err(OverlapMessage)
      else Ok(data)
    else
      Ok(data)
  }

  /** `OrgEventForm.clean`, written out separately as the organisation form
      does; it decides every input exactly as `EventFormClean`. */
  function OrgEventFormClean(data: FormData, instance: StoredWindow, stored: seq<Application>): (r: Result<FormData>)
    ensures r == EventFormClean(data, instance, stored)
  {
    if data.startTime.Some? && data.endTime.Some? then
      var start, end := data.startTime.value, data.endTime.value;
      var existing := Overlapping(stored, start, end);
      if Unchanged(instance, start, end) then Ok(data)
      else if existing != [] then Err(OverlapMessage)
      else Ok(data)
    else
      Ok(data)
  }

  // ---------------------------------------------------------------------
  // Properties of the rule
  // ---------------------------------------------------------------------

  /** Intersection of half-open windows is symmetric. */
  lemma IntersectsSymmetric(a: Application, b: Application)
    ensures Intersects(a, b.start, b.end) <==> Intersects(b, a.start, a.end)
  {
  }

  /** Touching windows do not conflict: when every stored row ends no later
      than the candidate starts, or starts no earlier than it ends, the data
      is accepted. */
  lemma TouchingAccepted(data: FormData, instance: StoredWindow, stored: seq<Application>)
    requires data.startTime.Some? && data.endTime.Some?
    requires forall i :: 0 <= i < |stored| ==>
      stored[i].end <= data.startTime.value || stored[i].start >= data.endTime.value
    ensures EventFormClean(data, instance, stored) == Ok(data)
  {
  }

  /** An unchanged edit is accepted even when other stored applications
      intersect its window. */
  lemma UnchangedEditAccepted(data: FormData, stored: seq<Application>)
    requires data.startTime.Some? && data.endTime.Some?
    ensures EventFormClean(data, Some((data.startTime.value, data.endTime.value)), stored) == Ok(data)
  {
  }

  /** Moving either endpoint loses the exemption: because the edited record's
      own row stays in the table, a new window that intersects its old window
      is refused. */
  lemma MovedWindowHitsItself(data: FormData, own: Application, stored: seq<Application>)
    requires own in stored
    requires data.startTime.Some? && data.endTime.Some?
    requires (data.startTime.value, data.endTime.value) != (own.start, own.end)
    requires Intersects(own, data.startTime.value, data.endTime.value)
    ensures EventFormClean(data, Some((own.start, own.end)), stored) == Err(OverlapMessage)
  {
  }

  /** Two tables that hold the same windows in the same order. */
  predicate SameWindows(s: seq<Application>, t: seq<Application>)
  {
    |s| == |t| && forall i :: 0 <= i < |s| ==> s[i].start == t[i].start && s[i].end == t[i].end
  }

  /** Status is ignored: tables that differ only in statuses, ids or owning
      organisations give the same verdict, so a Declined row blocks exactly
      as an Approved one. */
  lemma StatusIgnored(data: FormData, instance: StoredWindow, s: seq<Application>, t: seq<Application>)
    requires SameWindows(s, t)
    ensures EventFormClean(data, instance, s) == EventFormClean(data, instance, t)
  {
  }

  /** A window that fully contains a stored window conflicts with it. */
  lemma ContainingWindowRefused(data: FormData, instance: StoredWindow, row: Application, stored: seq<Application>)
    requires row in stored && row.start < row.end
    requires data.startTime.Some? && data.endTime.Some?
    requires data.startTime.value <= row.start && row.end <= data.endTime.value
    requires !Unchanged(instance, data.startTime.value, data.endTime.value)
    ensures EventFormClean(data, instance, stored) == Err(OverlapMessage)
  {
  }

  /** Worked cases, times in seconds from 2024-01-01T00:00: [10:00, 12:00)
      stored; [11:00, 13:00) is refused; [12:00, 13:00) is accepted; an
      unchanged edit of [10:00, 12:00) is accepted beside a stored [09:00,
      11:00). */
  lemma Scenarios()
    ensures var stored := [Application(1, 1, 36000, 43200, Approved)];
      EventFormClean(FormData(Some(39600), Some(46800), map[]), None, stored) == Err(OverlapMessage)
    ensures var stored := [Application(1, 1, 36000, 43200, Approved)];
      EventFormClean(FormData(Some(43200), Some(46800), map[]), None, stored) == Ok(FormData(Some(43200), Some(46800), map[]))
    ensures var stored := [Application(1, 1, 36000, 43200, Pending), Application(2, 2, 32400, 39600, Declined)];
      EventFormClean(FormData(Some(36000), Some(43200), map[]), Some((36000, 43200)), stored)
        == Ok(FormData(Some(36000), Some(43200), map[]))
  {
  }
}
