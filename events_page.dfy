/** The admin's events page (app/app/events/page.js): the events loaded from
    the server are filtered in the browser by action, AI domain and data
    type, and the filtered list can be exported as CSV. React state and the
    download itself are not modelled. */
module EventsPage {
  import opened Wrappers
  import opened Text

  /** An event as the page holds it; `userId` is `None` when the JSON has
      none. */
  datatype ShownEvent = ShownEvent(
    timestamp: string,
    aiDomain: string,
    action: string,
    dataTypes: seq<string>,
    ruleId: string,
    userId: Option<string>)

  /** The three filter inputs; the empty string means "any". */
  datatype Filters = Filters(action: string, domain: string, dataType: string)

  const NoFilters: Filters := Filters("", "", "")

  /** The callback given to `filter`: each filter rejects only when it is
      set. */
  function Keep(e: ShownEvent, f: Filters): (keep: bool)
    ensures keep <==>
              && (f.action == "" || e.action == f.action)
              && (f.domain == "" || Contains(e.aiDomain, f.domain))
              && (f.dataType == "" || f.dataType in e.dataTypes)
  {
    if f.action != "" && e.action != f.action then false
    else if f.domain != "" && !Contains(e.aiDomain, f.domain) then false
    else if f.dataType != "" && f.dataType !in e.dataTypes then false
    else true
  }

  /** `filteredEvents`. */
  function FilterEvents(events: seq<ShownEvent>, f: Filters): seq<ShownEvent> {
    if events == [] then []
    else (if Keep(events[0], f) then [events[0]] else []) + FilterEvents(events[1..], f)
  }

  /** `a` is `b` with some elements left out, the rest in order. */
  predicate IsSubsequence<T(==)>(a: seq<T>, b: seq<T>)
    decreases |b|
  {
    a == [] || (b != [] && ((a[0] == b[0] && IsSubsequence(a[1..], b[1..])) || IsSubsequence(a, b[1..])))
  }

  /** With every filter empty the list is shown whole. */
  lemma {:induction false} NoFiltersKeepAll(events: seq<ShownEvent>)
    ensures FilterEvents(events, NoFilters) == events
  {
    if events != [] {
      NoFiltersKeepAll(events[1..]);
    }
  }

  /** The filtered list keeps events in their order and drops some. */
  lemma {:induction false} FilterIsSubsequence(events: seq<ShownEvent>, f: Filters)
    ensures IsSubsequence(FilterEvents(events, f), events)
  {
    if events != [] {
      FilterIsSubsequence(events[1..], f);
      var rest := FilterEvents(events[1..], f);
      if Keep(events[0], f) {
        assert FilterEvents(events, f) == [events[0]] + rest;
        assert ([events[0]] + rest)[1..] == rest;
      } else {
        assert FilterEvents(events, f) == rest;
      }
    }
  }

  /** An event is shown exactly when it was loaded and passes every set
      filter. */
  lemma {:induction false} FilterMembership(events: seq<ShownEvent>, f: Filters, e: ShownEvent)
    ensures e in FilterEvents(events, f) <==> e in events && Keep(e, f)
  {
    if events != [] {
      FilterMembership(events[1..], f, e);
      assert events == [events[0]] + events[1..];
    }
  }

  /** Filtering twice with the same inputs changes nothing more. */
  lemma {:induction false} FilterIdempotent(events: seq<ShownEvent>, f: Filters)
    ensures FilterEvents(FilterEvents(events, f), f) == FilterEvents(events, f)
  {
    if events != [] {
      FilterIdempotent(events[1..], f);
      var rest := FilterEvents(events[1..], f);
      if Keep(events[0], f) {
        var r := [events[0]] + rest;
        assert FilterEvents(events, f) == r;
        assert r[0] == events[0] && r[1..] == rest;
        assert FilterEvents(r, f) == [events[0]] + FilterEvents(rest, f);
      } else {
        assert FilterEvents(events, f) == rest;
      }
    }
  }

  // ---------------------------------------------------------------------------
  // CSV export
  // ---------------------------------------------------------------------------

  const Headers: seq<string> := ["timestamp", "aiDomain", "action", "dataTypes", "ruleId", "userId"]

  /** The six values of a row, in header order: the data types joined by
      semicolons, a missing user id empty. */
  function RowValues(e: ShownEvent): seq<string> {
    [e.timestamp, e.aiDomain, e.action, Join(e.dataTypes, ";"), e.ruleId,
     if e.userId.Some? then e.userId.value else ""]
  }

  function Rows(events: seq<ShownEvent>): (rows: seq<string>)
    ensures |rows| == |events| && forall i :: 0 <= i < |events| ==> rows[i] == Join(RowValues(events[i]), ",")
  {
    seq(|events|, i requires 0 <= i < |events| => Join(RowValues(events[i]), ","))
  }

  /** `exportCsv`'s text: the header, then a row per filtered event, joined
      by line breaks. */
  function ExportCsv(events: seq<ShownEvent>, f: Filters): string {
    Join([Join(Headers, ",")] + Rows(FilterEvents(events, f)), "\n")
  }

  lemma HeadersPlain()
    ensures forall k :: 0 <= k < |Headers| ==> ',' !in Headers[k] && '\n' !in Headers[k]
  {
  }

  /** No value of the event holds `c`, the data types included. */
  predicate Avoids(e: ShownEvent, c: char) {
    && c !in e.timestamp && c !in e.aiDomain && c !in e.action && c !in e.ruleId
    && (e.userId.Some? ==> c !in e.userId.value)
    && forall k :: 0 <= k < |e.dataTypes| ==> c !in e.dataTypes[k]
  }

  lemma RowValuesAvoid(e: ShownEvent, c: char)
    requires Avoids(e, c) && c != ';'
    ensures forall k :: 0 <= k < |RowValues(e)| ==> c !in RowValues(e)[k]
  {
    JoinAvoids(e.dataTypes, ";", c);
  }

  /** A row reads back as its six values when none holds a comma, and the
      data types read back from their cell when none holds a semicolon. */
  lemma CsvRowValues(e: ShownEvent)
    requires Avoids(e, ',')
    ensures Split(Join(RowValues(e), ","), ',') == RowValues(e) && |RowValues(e)| == 6
    ensures e.dataTypes != [] && (forall k :: 0 <= k < |e.dataTypes| ==> ';' !in e.dataTypes[k]) ==>
              Split(RowValues(e)[3], ';') == e.dataTypes
  {
    RowValuesAvoid(e, ',');
    SplitJoin(RowValues(e), ',');
    if e.dataTypes != [] && (forall k :: 0 <= k < |e.dataTypes| ==> ';' !in e.dataTypes[k]) {
      SplitJoin(e.dataTypes, ';');
    }
  }

  /** The export is the six-column header followed by exactly one line per
      filtered event, in order, when no value holds a line break. */
  lemma ExportCsvLines(events: seq<ShownEvent>, f: Filters)
    requires forall i :: 0 <= i < |events| ==> Avoids(events[i], '\n')
    ensures var lines := Split(ExportCsv(events, f), '\n');
            && lines == [Join(Headers, ",")] + Rows(FilterEvents(events, f))
            && Split(lines[0], ',') == Headers
            && |lines| == 1 + |FilterEvents(events, f)|
  {
    var shown := FilterEvents(events, f);
    var lines := [Join(Headers, ",")] + Rows(shown);
    HeadersPlain();
    JoinAvoids(Headers, ",", '\n');
    SplitJoin(Headers, ',');
    forall k | 0 <= k < |shown| ensures '\n' !in Rows(shown)[k] {
      FilterMembership(events, f, shown[k]);
      RowValuesAvoid(shown[k], '\n');
      JoinAvoids(RowValues(shown[k]), ",", '\n');
    }
    assert forall k :: 0 <= k < |lines| ==> '\n' !in lines[k] by {
      forall k | 0 <= k < |lines| ensures '\n' !in lines[k] {
        if k > 0 {
          assert lines[k] == Rows(shown)[k - 1];
        }
      }
    }
    SplitJoin(lines, '\n');
  }
}
