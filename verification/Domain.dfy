/** The values the gateway passes around: calls, results, verdicts and tickets. */
module Domain {

  datatype Option<+T> = None | Some(value: T)

  /** A JSON value, as it appears in arguments, annotations and result contents. */
  datatype Value =
    | Null
    | Bool(b: bool)
    | Num(n: real)
    | Str(s: string)
    | List(items: seq<Value>)
    | Obj(fields: map<string, Value>)

  type Args = map<string, Value>

  datatype Mode = Auto | Interactive | Async

  datatype Status = Approved | Rejected | Timeout | Pending

  datatype ToolCall = ToolCall(requestId: string, agentId: string, upstreamId: string, toolName: string,
                               arguments: Args, annotations: Args)
  {
    function FullName(): string {
      upstreamId + "." + toolName
    }
  }

  datatype ToolResult = ToolResult(content: Value, isError: bool, elapsedMs: int, notes: seq<string>)

  /** What the authorizer returns; the schema is a JSON document the validator interprets. */
  datatype Grant = Grant(mode: Mode, schema: Option<Value>)

  datatype Decision = Decision(status: Status, approver: string, reason: string, edited: Option<Args>)

  const PENDING := Decision(Pending, "", "", None)
  const TIMED_OUT := Decision(Timeout, "", "", None)

  datatype Ticket = Ticket(call: ToolCall, decision: Decision, result: Option<ToolResult>)

  /** Every outcome a caller can see instead of a result. */
  datatype Error =
    | ToolNotAllowed(text: string)
    | UpstreamUnavailable(text: string)
    | RateLimited(text: string)
    | SchemaInvalid(text: string)
    | ApprovalDenied(decision: Decision)
    | SecretRefMissing(ref: string)
    | SecretLeak(text: string)
    | PendingApproval(ticketId: string)
    | OtherError(text: string)  // raised by a contributed step
  {
    /** The message of the exception. */
    function Message(): string {
      match this
      case ApprovalDenied(d) =>
        "approval " + StatusText(d.status) + (if d.approver != "" then " by " + d.approver else "")
      case SecretRefMissing(ref) => "unknown secret refs: " + ref
      case PendingApproval(id) => "pending approval: " + id
      case _ => text
    }
  }

  function StatusText(s: Status): string {
    match s
    case Approved => "approved"
    case Rejected => "rejected"
    case Timeout => "timeout"
    case Pending => "pending"
  }

  /** The arguments an approved call runs with: the operator's edit when there is one. */
  function Effective(arguments: Args, d: Decision): Args {
    if d.edited.Some? then d.edited.value else arguments
  }

  /** What is stored of a run that failed. */
  function ErrorResult(e: Error): ToolResult {
    ToolResult(Str(e.Message()), true, 0, [])
  }

  /** A stored failure is marked as an error and reads as its message; these are the ones the gateway words. */
  lemma FailuresReadAsErrors(e: Error)
    ensures ErrorResult(e).isError && ErrorResult(e).content == Str(e.Message()) && ErrorResult(e).notes == []
    ensures e.PendingApproval? ==> e.Message() == "pending approval: " + e.ticketId
    ensures e.SecretRefMissing? ==> e.Message() == "unknown secret refs: " + e.ref
    ensures e.ApprovalDenied? && e.decision.status == Rejected && e.decision.approver != "" ==>
              e.Message() == "approval rejected by " + e.decision.approver
    ensures e.ApprovalDenied? && e.decision.status == Timeout && e.decision.approver == "" ==>
              e.Message() == "approval timeout"
  {
    if e.ApprovalDenied? && e.decision.status == Rejected {
      assert "approval " + "rejected" == "approval rejected";
      assert "approval " + "rejected" + (" by " + e.decision.approver) == "approval rejected by " + e.decision.approver;
    }
  }
}
