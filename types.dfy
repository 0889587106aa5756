/** The server's data model (server/src/types.ts). */
module Types {
  import opened Json

  /** The four phases of the authoring protocol. */
  datatype Phase = Collecte | Plan | Sections | Final

  /** The name a phase has on the wire (`z.enum(['collecte', 'plan', 'sections', 'final'])`). */
  function PhaseName(p: Phase): string {
    match p
    case Collecte => "collecte"
    case Plan => "plan"
    case Sections => "sections"
    case Final => "final"
  }

  datatype Role = User | Assistant

  /** One entry of a session's recent-turn ledger. */
  datatype Turn = Turn(role: Role, content: string)

  /** `SessionState`: one conversation, keyed by `id` in the session registry. */
  datatype Session = Session(
    id: string,
    promptVersion: string,
    phase: Phase,
    memory: Object,
    summary: string,
    recentTurns: seq<Turn>,
    disabled: bool)

  /** `AssistantEnvelope`: the body of a successful reply. */
  datatype Envelope = Envelope(
    sessionId: string,
    promptVersion: string,
    phase: Phase,
    assistantMarkdown: string,
    memorySnapshot: Object,
    finalMarkdownPresent: bool,
    nextAction: string)
}
