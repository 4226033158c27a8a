/** How ledger rows read as text, and `audit redact`, the ledger's only rewrite. */
module Redaction {
  import opened Records
  import opened Ledger
  import opened Protocol
  import Text

  // --- the text of a row --------------------------------------------------

  function ColumnName(field: Field): string {
    match field
    case AcceptanceCriteria => "acceptance_criteria"
    case ActorType => "actor_type"
    case Assignees => "assignees"
    case BlockedClaims => "blocked_claims"
    case Description => "description"
    case FollowUpTasks => "follow_up_tasks"
    case Name => "name"
    case NextSteps => "next_steps"
    case Notes => "notes"
    case Priority => "priority"
    case Resolution => "resolution"
    case Role => "role"
    case Status => "status"
    case Tags => "tags"
    case Title => "title"
    case Type => "type"
    case Uri => "uri"
    case UsageBoundaries => "usage_boundaries"
  }

  function Names(order: seq<Field>, fields: set<Field>): seq<string> {
    if order == [] then []
    else if order[0] in fields then [ColumnName(order[0])] + Names(order[1..], fields)
    else Names(order[1..], fields)
  }

  function Step(revision: int): string {
    "revision " + Text.Numeral(revision) + " -> " + Text.Numeral(revision + 1)
  }

  function KindName(kind: ObjectType): string {
    match kind
    case ReviewObject => "review"
    case DecisionObject => "decision"
    case MessageObject => "message"
    case TaskObject => "task"
    case EscalationObject => "escalation"
    case ArtifactObject => "artifact"
    case _ => ""
  }

  function Cause(because: Option<Reference>): string {
    if because.None? then "" else "; because=" + KindName(because.value.kind) + ":" + because.value.id
  }

  function Render(detail: Detail): string {
    match detail
    case Given(text) => text
    case ClaimLine(revision, reaped) =>
      Step(revision) + (if reaped.Some? then "; reaped session " + reaped.value else "")
    case RecoverClaimLine(session, revision, reason) =>
      "session " + session + "; in_progress -> blocked; " + Step(revision) + "; " + reason
    case ForcedLine(reason) => "forced; " + reason
    case StatusLine(from, to, revision, because) =>
      StatusName(from) + " -> " + StatusName(to) + "; " + Step(revision) + Cause(because)
    case FieldsLine(fields, observed) =>
      "fields=" + Text.Join(Names(FIELDS, fields), ',')
      + (if observed.Some? then "; " + Step(observed.value) else "")
    case ColumnsLine(fields) => Text.Join(Names([Name, Role, ActorType, Status], fields), ',')
    case AssignLine(added, removed, revision) =>
      "add=" + Text.Join(Text.Sorted(added), ',') + "; remove=" + Text.Join(Text.Sorted(removed), ',')
      + "; " + Step(revision)
    case CursorLine(previous, cursor) =>
      "inbox cursor " + Text.Numeral(previous) + " -> " + Text.Numeral(cursor)
    case RulingLine(before, after, because, note) =>
      before + " -> " + after + Cause(because) + (if note == "" then "" else "; " + note)
    case ArchiveLine(tasks, messages, path) =>
      "tasks=" + Text.Dec(tasks) + "; messages=" + Text.Dec(messages) + "; archive " + path
    case Tombstone(redaction) => Sentinel(redaction)
  }

  /** `detail.startswith("[redacted:")`: what `audit redact` takes for a tombstone. */
  predicate Marked(text: string) { MARK <= text }

  // --- the rewrite --------------------------------------------------------

  function RedactAudit(s: Tables, auditId: nat, actor: Id, reason: string, session: Option<Id>)
    : Result<Draft>
  {
    (:- Need(1 <= auditId <= |s.audit|, NotFound);
     :- Need(!Marked(Render(s.audit[auditId - 1].detail)), AlreadyRedacted);
     Ok(Draft(s, Entry(actor, session, Redact, AuditObject, Text.Dec(auditId), Given(reason), map[]),
              Strike(auditId))))
  }
}
