/** Helpers of the application-wide client script: the minutes formatter, the icon of
    an alert, and the required-field check run before a form is submitted. */
module AppUi {
  import opened Wrappers
  import opened Text
  import opened Numbers

  // ---------------------------------------------------------------------------------
  // formatDuration(minutes)
  // ---------------------------------------------------------------------------------

  /** "{h}h{mm}" from one hour on, else "{m}min"; the two-digit field is the
      padStart(2, '0') rendering of the minutes within the hour. */
  function FormatMinutes(minutes: nat): string
  {
    var hours := minutes / 60;
    var mins := minutes % 60;
    if hours > 0 then NatToString(hours) + "h" + TwoDigits(mins)
    else NatToString(mins) + "min"
  }

  /** From one hour on the text starts with the hours and ends with the two digits of
      the minutes within the hour; below an hour it is the minutes followed by "min". */
  lemma FormatMinutesReadsBack(minutes: nat)
    ensures minutes >= 60 ==>
      DigitPrefix(FormatMinutes(minutes)) == NatToString(minutes / 60) &&
      TwoDigitsAt(FormatMinutes(minutes), |NatToString(minutes / 60)| + 1) == Some(minutes % 60) &&
      |FormatMinutes(minutes)| == |NatToString(minutes / 60)| + 3
    ensures minutes < 60 ==> FormatMinutes(minutes) == NatToString(minutes) + "min"
  {
    if minutes >= 60 {
      HoursReadBack(minutes);
    }
  }

  lemma HoursReadBack(minutes: nat)
    requires minutes >= 60
    ensures DigitPrefix(FormatMinutes(minutes)) == NatToString(minutes / 60)
    ensures TwoDigitsAt(FormatMinutes(minutes), |NatToString(minutes / 60)| + 1) == Some(minutes % 60)
    ensures |FormatMinutes(minutes)| == |NatToString(minutes / 60)| + 3
  {
    var h, m := minutes / 60, minutes % 60;
    ClockReadsBack(h, "h", m, "");
    assert FormatMinutes(minutes) == NatToString(h) + "h" + TwoDigits(m) + "";
  }

  // ---------------------------------------------------------------------------------
  // getAlertIcon
  // ---------------------------------------------------------------------------------

  const AlertIcons: map<string, string> :=
    map["success" := "check-circle", "danger" := "exclamation-triangle",
        "warning" := "exclamation-triangle", "info" := "info-circle"]

  const DefaultAlertIcon: string := "info-circle"

  /** The icon of an alert type; an unknown type gets the information icon. */
  function AlertIcon(alertType: string): (icon: string)
    ensures alertType in AlertIcons ==> icon == AlertIcons[alertType]
    ensures alertType !in AlertIcons ==> icon == DefaultAlertIcon
  {
    if alertType in AlertIcons then AlertIcons[alertType] else DefaultAlertIcon
  }

  /** An unknown type looks like an information alert; danger and warning share their
      icon. */
  lemma AlertIconFallback(alertType: string)
    ensures alertType !in AlertIcons ==> AlertIcon(alertType) == AlertIcon("info")
    ensures AlertIcon("danger") == AlertIcon("warning")
    ensures AlertIcon(alertType) in AlertIcons.Values
  {
    assert "info" in AlertIcons;
  }

  // ---------------------------------------------------------------------------------
  // validateForm
  // ---------------------------------------------------------------------------------

  /** What happens to a required field: marked invalid, or its error cleared. */
  datatype FieldMark = MarkedInvalid | ErrorCleared

  /** A required field is filled when it holds a character other than whitespace,
      that is, when its trimmed value is not empty (StripEmptyIffBlank). */
  predicate Filled(value: string)
  {
    exists k :: 0 <= k < |value| && value[k] !in Whitespace
  }

  /** `validateForm` over the values of the form's required fields, in document order:
      every field is marked; the form goes through iff every field is filled;
      otherwise submission is prevented and exactly one alert is shown. */
  method ValidateForm(values: seq<string>) returns (marks: seq<FieldMark>, isValid: bool, prevented: bool, alerts: nat)
    ensures |marks| == |values|
    ensures forall k :: 0 <= k < |values| ==> (marks[k] == ErrorCleared <==> Filled(values[k]))
    ensures isValid <==> forall k :: 0 <= k < |values| ==> Filled(values[k])
    ensures prevented == !isValid
    ensures alerts == if isValid then 0 else 1
  {
    marks := [];
    isValid := true;
    for i := 0 to |values|
      invariant |marks| == i
      invariant forall k :: 0 <= k < i ==> (marks[k] == ErrorCleared <==> Filled(values[k]))
      invariant isValid <==> forall k :: 0 <= k < i ==> Filled(values[k])
    {
      var trimmed := Strip(values[i]);
      StripEmptyIffBlank(values[i]);
      if trimmed == [] {
        marks := marks + [MarkedInvalid];
        isValid := false;
      } else {
        marks := marks + [ErrorCleared];
      }
    }
    prevented := false;
    alerts := 0;
    if !isValid {
      prevented := true;
      alerts := alerts + 1;
    }
  }
}
