/**
 * The records shared by the chat window, the sidebar and the service layer
 * (types.ts). A `Date` timestamp carries no behaviour of interest here and
 * is left out of `Message`.
 */
module Types {
  import opened Wrappers

  datatype Holiday = Holiday(date: string, name: string)

  datatype HandbookSection = HandbookSection(title: string, content: string)

  /** The tenant whose name, handbook and holidays parameterise every prompt. */
  datatype CompanyConfig = CompanyConfig(
    name: string,
    handbookSections: seq<HandbookSection>,
    holidays: seq<Holiday>)

  /** A citation the hosted model attached when it used web search. */
  datatype GroundingLink = GroundingLink(title: string, uri: string)

  datatype Role = User | Assistant

  datatype Feedback = Helpful | NotHelpful

  datatype Message = Message(
    id: string,
    role: Role,
    content: string,
    audioData: Option<string>,
    groundingLinks: Option<seq<GroundingLink>>,
    feedback: Option<Feedback>)
}
