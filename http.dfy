/** What the route handlers answer: an HTTP status and the JSON payload
    `NextResponse.json` serializes. */
module Http {
  import opened Types
  import Validations

  datatype Payload =
    | ErrorMessage(error: string)
      /** A body the zod schema refused: the route answers `{ error: message }`,
          where the message of a `ZodError` is its list of issues. */
    | InvalidBody(issues: seq<Validations.Issue>)
    | AgentList(agents: seq<Agent>)
    | AgentCreated(agent: Agent)
    | OrganizationList(organizations: seq<OrgWithRole>)
    | OrganizationCreated(organization: Organization)
    | VoiceList(voices: seq<Voice>)

  datatype Response = Response(status: int, payload: Payload)

  const OkStatus := 200
  const BadRequest := 400
  const Unauthorized := 401
  const Forbidden := 403
  const TooManyRequests := 429
  const InternalServerError := 500

  const UnauthorizedMessage := "Unauthorized"

  function Failure(status: int, message: string): Response {
    Response(status, ErrorMessage(message))
  }
}
