/** The records of lib/types.ts. Timestamps (`created_at`) are integers
    ordered as the store orders its timestamps. */
module Types {
  import opened Wrappers

  type UserId = string

  /** `OrgRole`, from most to least privileged. */
  datatype Role = Owner | Admin | Editor | Analyst | Viewer

  datatype Organization = Organization(id: string, name: string, created_at: int)

  /** A row of `organization_members`; the store keeps one per (org_id, user_id). */
  datatype Membership = Membership(org_id: string, user_id: UserId, role: Role)

  /** An organization as `GET /api/orgs` lists it: the joined organization
      (absent when the join finds none) extended with the member's role. */
  datatype OrgWithRole = OrgWithRole(organization: Option<Organization>, role: Role)

  datatype Agent = Agent(
    id: string,
    org_id: string,
    name: string,
    language: string,
    system_prompt: string,
    elevenlabs_voice_id: string,
    voice_stability: Option<real>,
    voice_similarity_boost: Option<real>,
    voice_style: Option<string>,
    created_by: UserId,
    created_at: int)

  /** The application's view of a provider voice. */
  datatype Voice = Voice(
    id: string,
    name: string,
    language: Option<string>,
    category: Option<string>,
    description: Option<string>)
}
