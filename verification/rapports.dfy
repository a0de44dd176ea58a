/** A therapy report as stored: its review status, the therapist's notes, its
    recipients and when it was sent, with the attendance rate of its period and the
    date the next report is due. */
module Rapports {
  import opened Wrappers
  import opened Sessions

  datatype RapportStatus = Draft | Generated | Reviewed | Validated | Archived

  /** Truthiness of an optional text: set and not empty. */
  predicate Truthy(notes: Option<string>)
  {
    notes.Some? && notes.value != []
  }

  class Rapport {
    var status: RapportStatus
    var therapistNotes: Option<string>
    /** The decoded recipient list; a missing list is the empty one. */
    var recipients: seq<string>
    /** The clock reading of the sending, if sent. */
    var sentAt: Option<int>
    var updatedAt: int
    /** The last day of the period, as a day number. */
    var periodEnd: int

    /** A new report: a draft, without notes, recipients or sending. */
    constructor (periodEnd: int, now: int)
      ensures status == Draft && therapistNotes == None && recipients == [] && sentAt == None
      ensures this.periodEnd == periodEnd && updatedAt == now
    {
      status := Draft;
      therapistNotes := None;
      recipients := [];
      sentAt := None;
      updatedAt := now;
      this.periodEnd := periodEnd;
    }

    /** `is_editable`: only a draft or a generated report may be changed. */
    predicate IsEditable()
      reads this
      ensures IsEditable() <==> status == Draft || status == Generated
    {
      status in {Draft, Generated}
    }

    /** `can_be_sent`: a reviewed or validated report with at least one recipient. */
    predicate CanBeSent()
      reads this
      ensures CanBeSent() <==> (status == Reviewed || status == Validated) && recipients != []
    {
      status in {Reviewed, Validated} && recipients != []
    }

    /** `mark_as_reviewed`: reviewed from whatever status; the notes are replaced only
        by notes that are set and not empty. */
    method MarkAsReviewed(notes: Option<string>, now: int)
      modifies this
      ensures status == Reviewed && updatedAt == now
      ensures therapistNotes == if Truthy(notes) then notes else old(therapistNotes)
      ensures recipients == old(recipients) && sentAt == old(sentAt) && periodEnd == old(periodEnd)
      ensures !IsEditable()
      ensures CanBeSent() <==> recipients != []
    {
      status := Reviewed;
      if Truthy(notes) {
        therapistNotes := notes;
      }
      updatedAt := now;
    }

    /** `mark_as_validated`: validated from whatever status, even a draft. */
    method MarkAsValidated(now: int)
      modifies this
      ensures status == Validated && updatedAt == now
      ensures therapistNotes == old(therapistNotes) && recipients == old(recipients)
      ensures sentAt == old(sentAt) && periodEnd == old(periodEnd)
      ensures !IsEditable() && (CanBeSent() <==> recipients != [])
    {
      status := Validated;
      updatedAt := now;
    }

    /** `mark_as_sent`: only the sending time is recorded; the status does not move,
        and nothing checks that the report could be sent. */
    method MarkAsSent(now: int)
      modifies this
      ensures sentAt == Some(now) && updatedAt == now
      ensures status == old(status) && therapistNotes == old(therapistNotes)
      ensures recipients == old(recipients) && periodEnd == old(periodEnd)
      ensures IsEditable() == old(IsEditable()) && CanBeSent() == old(CanBeSent())
    {
      sentAt := Some(now);
      updatedAt := now;
    }

    /** `get_next_report_due_date`: the end of the period moved by whole weeks, so on
        the same weekday, later exactly when the interval is positive. The source's
        default interval of 6 weeks is left to the caller. */
    function NextReportDueDate(intervalWeeks: int): (due: int)
      reads this
      ensures (due - periodEnd) % 7 == 0 && (due - periodEnd) / 7 == intervalWeeks
      ensures due > periodEnd <==> intervalWeeks > 0
    {
      periodEnd + 7 * intervalWeeks
    }
  }

  /** A draft validated without review cannot be edited any more. */
  method ValidateDraft(r: Rapport, now: int)
    requires r.status == Draft
    modifies r
    ensures !r.IsEditable() && r.status == Validated
  {
    r.MarkAsValidated(now);
  }

  // ---------------------------------------------------------------------------------
  // calculate_attendance_rate
  // ---------------------------------------------------------------------------------

  /** The sessions of the list that took place, as the comprehension counts them. */
  function CompletedCount(statuses: seq<SessionStatus>): (c: nat)
    ensures c <= |statuses|
  {
    if statuses == [] then 0
    else CompletedCount(statuses[..|statuses| - 1]) + (if statuses[|statuses| - 1] == Completed then 1 else 0)
  }

  /** The percentage of the period's sessions that took place; 0 without sessions. */
  function AttendanceRate(statuses: seq<SessionStatus>): (rate: real)
    ensures statuses == [] ==> rate == 0.0
    ensures statuses != [] ==> rate * |statuses| as real == CompletedCount(statuses) as real * 100.0
  {
    if statuses == [] then 0.0
    else CompletedCount(statuses) as real / |statuses| as real * 100.0
  }

  /** The rate is a percentage. */
  lemma AttendanceRateBounds(statuses: seq<SessionStatus>)
    ensures 0.0 <= AttendanceRate(statuses) <= 100.0
  {
    if statuses != [] {
      var n := |statuses| as real;
      var c := CompletedCount(statuses) as real;
      assert c <= n;
      assert c / n <= 1.0;
    }
  }

  /** The rate is 100 exactly when every session took place, and 0 exactly when none
      did. */
  lemma {:induction false} AttendanceRateExtremes(statuses: seq<SessionStatus>)
    requires statuses != []
    ensures AttendanceRate(statuses) == 100.0 <==> forall k :: 0 <= k < |statuses| ==> statuses[k] == Completed
    ensures AttendanceRate(statuses) == 0.0 <==> forall k :: 0 <= k < |statuses| ==> statuses[k] != Completed
  {
    CountExtremes(statuses);
  }

  lemma {:induction false} CountExtremes(statuses: seq<SessionStatus>)
    ensures CompletedCount(statuses) == |statuses| <==> forall k :: 0 <= k < |statuses| ==> statuses[k] == Completed
    ensures CompletedCount(statuses) == 0 <==> forall k :: 0 <= k < |statuses| ==> statuses[k] != Completed
  {
    if statuses != [] {
      var init := statuses[..|statuses| - 1];
      CountExtremes(init);
      assert forall k :: 0 <= k < |init| ==> init[k] == statuses[k];
    }
  }

  /** One more session that took place never lowers the rate. */
  lemma AttendanceRateRises(statuses: seq<SessionStatus>)
    ensures AttendanceRate(statuses) <= AttendanceRate(statuses + [Completed])
  {
    var after := statuses + [Completed];
    assert after[..|after| - 1] == statuses;
    if statuses != [] {
      var n := |statuses| as real;
      var c := CompletedCount(statuses) as real;
      assert CompletedCount(after) as real == c + 1.0;
      assert c <= n;
      RatioBelow(c, n, c + 1.0, n + 1.0);
    }
  }

  /** Fractions compared by cross-multiplication. */
  lemma RatioBelow(a: real, b: real, c: real, d: real)
    requires b > 0.0 && d > 0.0 && a * d <= c * b
    ensures a / b <= c / d
  {
    var x, y := a / b, c / d;
    assert x * b == a && y * d == c;
    assert (x - y) * (b * d) == a * d - c * b;
    assert b * d > 0.0;
  }
}
