/**
 * The records of `sharing/models.py`: share links, memberships and invites,
 * with their choice sets and defaults.
 */
module SharingModels {
  import opened Common

  /** Primary key of a `ShareLink` (a UUID in the source, never reused). */
  type Token = nat

  datatype ResourceKind = ChatKind | NoteKind

  datatype Permission = Read | Collab

  datatype InviteStatus = Pending | Accepted | Declined | Revoked

  /** The shared resource: exactly one of session id and note, matching the kind. */
  datatype Resource = ChatSession(sessionId: string) | SharedNote(noteId: nat)
  {
    function Kind(): ResourceKind
    {
      if ChatSession? then ChatKind else NoteKind
    }
  }

  /** A `ShareLink` row; `revoked` stands for `revoked_at is not None`. */
  datatype ShareLink = ShareLink(resource: Resource, createdBy: UserId, permission: Permission, revoked: bool)
  {
    /** A link is active while it has not been revoked. */
    predicate IsActive()
    {
      !revoked
    }
  }

  /** A `ShareMember` row; the (share, user) pair is its key. */
  datatype ShareMember = ShareMember(addedBy: Option<UserId>, role: string)

  /** A `ShareInvite` row; the (share, invited user) pair is its key. `responded` stands for `responded_at`. */
  datatype ShareInvite = ShareInvite(id: nat, invitedBy: UserId, status: InviteStatus, responded: bool)

  const DefaultPermission: Permission := Read
  const DefaultRole: string := "collaborator"
  const DefaultStatus: InviteStatus := Pending

  function KindName(k: ResourceKind): string
  {
    match k
    case ChatKind => "chat"
    case NoteKind => "note"
  }

  function PermissionName(p: Permission): string
  {
    match p
    case Read => "read"
    case Collab => "collab"
  }

  function StatusName(s: InviteStatus): string
  {
    match s
    case Pending => "pending"
    case Accepted => "accepted"
    case Declined => "declined"
    case Revoked => "revoked"
  }

  /** A `resource_type` request value checked against `RESOURCE_CHOICES`. */
  function ParseKind(s: Option<string>): (r: Option<ResourceKind>)
    ensures r.Some? <==> s == Some("chat") || s == Some("note")
    ensures r.Some? ==> s == Some(KindName(r.value))
  {
    if s == Some("chat") then Some(ChatKind)
    else if s == Some("note") then Some(NoteKind)
    else None
  }

  /** A `permission` request value checked against `PERMISSION_CHOICES`; absent means "read". */
  function ParsePermission(s: Option<string>): (r: Option<Permission>)
    ensures s.None? ==> r == Some(DefaultPermission)
    ensures s.Some? ==> (r.Some? <==> s.value in {"read", "collab"})
    ensures s.Some? && r.Some? ==> s.value == PermissionName(r.value)
  {
    if s.None? || s == Some("read") then Some(Read)
    else if s == Some("collab") then Some(Collab)
    else None
  }

  /** A stored `status` value checked against `STATUS_CHOICES`. */
  function ParseStatus(s: string): (r: Option<InviteStatus>)
    ensures r.Some? <==> s in {"pending", "accepted", "declined", "revoked"}
    ensures r.Some? ==> s == StatusName(r.value)
  {
    match s
    case "pending" => Some(Pending)
    case "accepted" => Some(Accepted)
    case "declined" => Some(Declined)
    case "revoked" => Some(Revoked)
    case _ => None
  }

  /** Every choice is written as a distinct name that reads back as itself. */
  lemma ChoiceNamesRoundTrip(k: ResourceKind, p: Permission, st: InviteStatus)
    ensures ParseKind(Some(KindName(k))) == Some(k)
    ensures ParsePermission(Some(PermissionName(p))) == Some(p)
    ensures ParseStatus(StatusName(st)) == Some(st)
  {
  }

  /** The invite row `get_or_create` adds: pending, not yet answered. */
  function NewInvite(id: nat, invitedBy: UserId): (r: ShareInvite)
    ensures r.status == DefaultStatus && !r.responded
  {
    ShareInvite(id, invitedBy, Pending, false)
  }

  /** The membership accepting an invite adds. */
  function NewMember(addedBy: UserId): (r: ShareMember)
    ensures r.role == DefaultRole && r.addedBy == Some(addedBy)
  {
    ShareMember(Some(addedBy), DefaultRole)
  }
}
