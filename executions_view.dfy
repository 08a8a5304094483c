/** The executions list: the status label and the status icon of a run. */
module ExecutionsView {
  import opened Strings

  /** `status.charAt(0) + status.slice(1).toLowerCase()` */
  function FormatStatus(status: string): (r: string)
    ensures |r| == |status|
    ensures |status| > 0 ==> r[0] == status[0]
    ensures forall i :: 1 <= i < |status| ==> r[i] == LowerChar(status[i])
  {
    if status == [] then "" else [status[0]] + ToLower(status[1..])
  }

  /** Formatting a label again changes nothing. */
  lemma FormatStatusIdempotent(status: string)
    ensures FormatStatus(FormatStatus(status)) == FormatStatus(status)
  {
    var once := FormatStatus(status);
    var twice := FormatStatus(once);
    forall i | 1 <= i < |status|
      ensures twice[i] == once[i]
    {
      assert LowerChar(LowerChar(status[i])) == LowerChar(status[i]);
    }
  }

  /** A label is the formatting of a status exactly when it keeps the first
      character and lower-cases the rest. */
  lemma FormatsTo(status: string, text: string)
    requires |text| == |status| && (|status| > 0 ==> text[0] == status[0])
    requires forall i :: 1 <= i < |status| ==> text[i] == LowerChar(status[i])
    ensures FormatStatus(status) == text
  {
  }

  /** The three statuses of a run, as labels. */
  lemma KnownLabels()
    ensures FormatStatus("SUCCESS") == "Success"
    ensures FormatStatus("FAILED") == "Failed"
    ensures FormatStatus("RUNNING") == "Running"
  {
    FormatsTo("SUCCESS", "Success");
    FormatsTo("FAILED", "Failed");
    FormatsTo("RUNNING", "Running");
  }

  datatype StatusIcon = CircleCheck | CircleAlert | RefreshCw | ClockFading

  /** `getStatusIcon`'s switch. */
  function StatusIconOf(status: string): (icon: StatusIcon)
    ensures icon == CircleCheck <==> status == "SUCCESS"
    ensures icon == CircleAlert <==> status == "FAILED"
    ensures icon == RefreshCw <==> status == "RUNNING"
    ensures icon == ClockFading <==> status !in {"SUCCESS", "FAILED", "RUNNING"}
  {
    match status
    case "SUCCESS" => CircleCheck
    case "FAILED" => CircleAlert
    case "RUNNING" => RefreshCw
    case _ => ClockFading
  }
}
