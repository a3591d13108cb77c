/**
 * The stage-duration projection of a document's detail view: a pass over its
 * movements, newest first, that writes into each one the date to display, how
 * long the document was held at that stage, and (for the newest) the
 * current-location badge.
 */
module StageProjector {
  import opened Wrappers
  import opened Text

  /** A whole-day duration as the labels distinguish it. */
  datatype Span = Zero | One | Many(days: int) | Unknown

  /** The `time_held` label: a span, and whether it is the current stage. */
  datatype Held = Held(span: Span, current: bool)

  /**
   * One movement as the projection sees it. `day` is the movement's date-only
   * text read as a day number (None when it does not parse as `%Y-%m-%d`); the
   * last five fields are the keys the projection may write (None: not written).
   */
  datatype Stage = Stage(
    dateOnly: string,
    day: Option<int>,
    displayDate: Option<string>,
    timeHeld: Option<Held>,
    statusBadge: Option<string>,
    inDate: Option<string>,
    outDate: Option<string>)

  const CurrentBadge: string := "\U{1F7E2} Current Location"

  /** The number of days a span stands for, None for an unknown span. */
  function SpanDays(s: Span): Option<int> {
    match s
    case Zero => Some(0)
    case One => Some(1)
    case Many(n) => Some(n)
    case Unknown => None
  }

  /** The span of a computed day difference: 0 and 1 have labels of their own. */
  function SpanOf(d: int): (s: Span)
    ensures SpanDays(s) == Some(d)
    ensures s.Many? ==> d != 0 && d != 1
  {
    if d == 0 then Zero else if d == 1 then One else Many(d)
  }

  /** The text the detail view shows for a label. */
  function HeldText(h: Held): (t: string)
    ensures |t| >= 1
    ensures h.current <==> t[|t| - 1] == ')'
    ensures h.current ==> |t| >= 10 && t[|t| - 10..] == " (current)"
  {
    var base := match h.span
      case Zero => if h.current then "Today" else "Same day"
      case One => "1 day"
      case Many(n) => IntToText(n) + " days"
      case Unknown => "Unknown";
    if h.current then base + " (current)" else base
  }

  /** The annotation the loop gives the movement at index `i` of the newest-first list `s`. */
  function Annotate(s: seq<Stage>, i: nat, today: int): (r: Stage)
    requires i < |s|
    ensures r.dateOnly == s[i].dateOnly && r.day == s[i].day
    ensures r.displayDate == Some(s[i].dateOnly)
    ensures r.timeHeld.Some? && (r.timeHeld.value.current <==> i == 0)
    ensures i == 0 ==> r.statusBadge == Some(CurrentBadge)
    ensures i > 0 ==> r.statusBadge == s[i].statusBadge
    ensures i == 0 ==> r.inDate == s[i].inDate && r.outDate == s[i].outDate
  {
    var r := s[i].(displayDate := Some(s[i].dateOnly));
    if i == 0 then
      match s[0].day
      case Some(d) => r.(timeHeld := Some(Held(SpanOf(today - d), true)), statusBadge := Some(CurrentBadge))
      case None => r.(timeHeld := Some(Held(Unknown, true)), statusBadge := Some(CurrentBadge))
    else if s[i].day.Some? && s[i - 1].day.Some? then
      r.(timeHeld := Some(Held(SpanOf(s[i - 1].day.value - s[i].day.value), false)),
         inDate := Some(s[i].dateOnly), outDate := Some(s[i - 1].dateOnly))
    else
      r.(timeHeld := Some(Held(Unknown, false)))
  }

  /** The whole list after the loop. */
  function Annotated(s: seq<Stage>, today: int): (r: seq<Stage>)
    ensures |r| == |s|
  {
    seq(|s|, i requires 0 <= i < |s| => Annotate(s, i, today))
  }

  /**
   * The loop over `enumerate(movements)`: each movement is annotated in place,
   * reading the date of its newer neighbour at index `i - 1`.
   */
  method AnnotateStages(rows: array<Stage>, today: int)
    modifies rows
    ensures rows[..] == Annotated(old(rows[..]), today)
  {
    ghost var orig := rows[..];
    var i := 0;
    while i < rows.Length
      invariant 0 <= i <= rows.Length
      invariant forall k :: 0 <= k < i ==> rows[k] == Annotate(orig, k, today)
      invariant forall k :: i <= k < rows.Length ==> rows[k] == orig[k]
    {
      var m := rows[i];
      m := m.(displayDate := Some(m.dateOnly));
      if i == 0 {
        match m.day {
          case Some(d) =>
            m := m.(timeHeld := Some(Held(SpanOf(today - d), true)), statusBadge := Some(CurrentBadge));
          case None =>
            m := m.(timeHeld := Some(Held(Unknown, true)), statusBadge := Some(CurrentBadge));
        }
      } else {
        var newer := rows[i - 1];
        assert newer.day == orig[i - 1].day && newer.dateOnly == orig[i - 1].dateOnly;
        if m.day.Some? && newer.day.Some? {
          m := m.(timeHeld := Some(Held(SpanOf(newer.day.value - m.day.value), false)));
          m := m.(inDate := Some(m.dateOnly), outDate := Some(newer.dateOnly));
        } else {
          m := m.(timeHeld := Some(Held(Unknown, false)));
        }
      }
      assert m == Annotate(orig, i, today);
      rows[i] := m;
      i := i + 1;
    }
    assert forall k :: 0 <= k < rows.Length ==> rows[..][k] == Annotated(orig, today)[k];
  }

  /** The newest stage is held from its date until today, labelled current. */
  lemma CurrentStage(s: seq<Stage>, today: int)
    requires |s| >= 1
    ensures s[0].day.Some? ==>
              Annotated(s, today)[0].timeHeld == Some(Held(SpanOf(today - s[0].day.value), true)) &&
              SpanDays(SpanOf(today - s[0].day.value)) == Some(today - s[0].day.value)
    ensures s[0].day.None? ==> Annotated(s, today)[0].timeHeld == Some(Held(Unknown, true))
    ensures Annotated(s, today)[0].statusBadge == Some(CurrentBadge)
  {
  }

  /**
   * A past stage is held from its own date until the date of the next newer stage;
   * its out date is that stage's date. When either date does not parse the label
   * is Unknown and no in/out dates are written.
   */
  lemma PastStage(s: seq<Stage>, i: nat, today: int)
    requires 0 < i < |s|
    ensures var r := Annotated(s, today)[i];
            && (s[i].day.Some? && s[i - 1].day.Some? ==>
                  && r.timeHeld == Some(Held(SpanOf(s[i - 1].day.value - s[i].day.value), false))
                  && r.inDate == Some(s[i].dateOnly)
                  && r.outDate == Some(s[i - 1].dateOnly)
                  && r.outDate == Some(Annotated(s, today)[i - 1].dateOnly))
            && (s[i].day.None? || s[i - 1].day.None? ==>
                  && r.timeHeld == Some(Held(Unknown, false))
                  && r.inDate == s[i].inDate && r.outDate == s[i].outDate)
            && r.statusBadge == s[i].statusBadge
  {
  }

  /**
   * An older entry dated after a newer one is neither rejected nor clamped: its
   * stage is labelled with a negative number of days.
   */
  lemma NegativeGapKept(s: seq<Stage>, i: nat, today: int)
    requires 0 < i < |s| && s[i].day.Some? && s[i - 1].day.Some?
    requires s[i - 1].day.value < s[i].day.value
    ensures Annotated(s, today)[i].timeHeld ==
              Some(Held(Many(s[i - 1].day.value - s[i].day.value), false))
  {
  }

  /** Sum of the days of the past stages at indices 1 .. n-1 (unknown spans count as none). */
  function PastTotal(r: seq<Stage>, n: nat): int
    requires n <= |r|
  {
    if n <= 1 then 0 else PastTotal(r, n - 1) + DaysHeld(r[n - 1])
  }

  /** The days a labelled stage stands for; 0 when it has no known duration. */
  function DaysHeld(st: Stage): int {
    match st.timeHeld
    case Some(h) => SpanDays(h.span).GetOr(0)
    case None => 0
  }

  predicate AllDated(s: seq<Stage>) {
    forall k :: 0 <= k < |s| ==> s[k].day.Some?
  }

  /**
   * When every date parses, the past stages' durations add up to the span from the
   * oldest movement to the newest one.
   */
  lemma {:induction false} PastDurationsTelescope(s: seq<Stage>, today: int, n: nat)
    requires 1 <= n <= |s| && AllDated(s)
    ensures PastTotal(Annotated(s, today), n) == s[0].day.value - s[n - 1].day.value
  {
    if n > 1 {
      PastDurationsTelescope(s, today, n - 1);
      var r := Annotated(s, today);
      assert r[n - 1] == Annotate(s, n - 1, today);
      assert r[n - 1].timeHeld == Some(Held(SpanOf(s[n - 2].day.value - s[n - 1].day.value), false));
    }
  }

  /**
   * The worked example: movements dated Jan 10, Jan 8 and Jan 3 (day numbers 10, 8
   * and 3) with today Jan 10 give 0 days current, then 2 and 5 days.
   */
  lemma WorkedExample()
    ensures var s := [Stage("2026-01-10", Some(10), None, None, None, None, None),
                      Stage("2026-01-08", Some(8), None, None, None, None, None),
                      Stage("2026-01-03", Some(3), None, None, None, None, None)];
            var r := Annotated(s, 10);
            && r[0].timeHeld == Some(Held(Zero, true))
            && r[1].timeHeld == Some(Held(Many(2), false))
            && r[2].timeHeld == Some(Held(Many(5), false))
            && HeldText(r[0].timeHeld.value) == "Today (current)"
            && r[2].outDate == Some("2026-01-08")
  {
  }

  /** A single movement is the current stage and nothing else. */
  lemma SingleEntryIsCurrent(st: Stage, today: int)
    ensures var r := Annotated([st], today);
            r[0].timeHeld.Some? && r[0].timeHeld.value.current && r[0].statusBadge == Some(CurrentBadge)
  {
  }
}
