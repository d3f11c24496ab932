/**
 * The share/invite views of `sharing/views.py` as operations on one store:
 * links, memberships, invites, the chat history and the note table, with the
 * access gates that the detail, chat and note views apply.
 */
module SharingViews {
  import opened Common
  import opened Text
  import opened AiViews
  import opened Notes
  import opened ChatHistory
  import opened SharingModels

  /** The error responses of the views, one per `detail` message. */
  datatype Failure =
    | InvalidResourceType
    | InvalidPermission
    | SessionIdRequired
    | ChatSessionNotFound
    | NoteIdRequired
    | NoteNotFound
    | ShareNotFound
    | NotAllowed
    | InviteRequired(inviteId: nat)
    | ReadOnlyShare
    | MessageRequired
    | UsernameRequired
    | UserNotFound
    | AlreadyOwner
    | InviteNotFound
    | InviteAlreadyHandled
    | InvalidAction

  /** The HTTP status of each error response. */
  function StatusCode(f: Failure): (code: int)
    ensures code in {400, 403, 404}
    ensures code == 404 <==> f in {ChatSessionNotFound, NoteNotFound, ShareNotFound, UserNotFound, InviteNotFound}
    ensures code == 403 <==> f == NotAllowed || f == ReadOnlyShare || f.InviteRequired?
  {
    match f
    case ChatSessionNotFound | NoteNotFound | ShareNotFound | UserNotFound | InviteNotFound => 404
    case NotAllowed | InviteRequired(_) | ReadOnlyShare => 403
    case _ => 400
  }

  datatype Result<T> = Ok(value: T) | Err(failure: Failure)

  /** The key of a membership or an invite: (share token, user). */
  type Pair = (Token, UserId)

  // ------------------------------------------------------ store invariants

  /** Every token is below the next one to hand out, so new tokens are fresh. */
  ghost predicate LinksFresh(shares: map<Token, ShareLink>, nextToken: nat)
  {
    forall t :: t in shares ==> t < nextToken
  }

  /** At most one active link per (owner, resource, permission): what makes creation idempotent. */
  ghost predicate DistinctActiveLinks(shares: map<Token, ShareLink>)
  {
    forall a, b :: a in shares && b in shares && a != b && shares[a].IsActive() ==> shares[a] != shares[b]
  }

  /** Invites point at existing links, never at their owner, are sent by the owner, and carry `responded_at` iff answered. */
  ghost predicate InvitesConsistent(shares: map<Token, ShareLink>, invites: map<Pair, ShareInvite>, nextInviteId: nat)
  {
    forall p :: p in invites ==>
      && p.0 in shares
      && p.1 != shares[p.0].createdBy
      && invites[p].invitedBy == shares[p.0].createdBy
      && invites[p].id < nextInviteId
      && (invites[p].responded <==> invites[p].status != Pending)
  }

  /** Invite ids identify invites. */
  ghost predicate InviteIdsDistinct(invites: map<Pair, ShareInvite>)
  {
    forall p, q :: p in invites && q in invites && p != q ==> invites[p].id != invites[q].id
  }

  /** A membership exists exactly for the pairs whose invite is accepted, and was added by the link's owner. */
  ghost predicate MembersMatchInvites(shares: map<Token, ShareLink>, members: map<Pair, ShareMember>, invites: map<Pair, ShareInvite>)
  {
    && (forall p :: p in members ==>
          p in invites && invites[p].status == Accepted && p.0 in shares && members[p] == NewMember(shares[p.0].createdBy))
    && (forall p :: p in invites && invites[p].status == Accepted ==> p in members)
  }

  /** History rows belong to known users and have ids below the next one. */
  ghost predicate HistoryConsistent(history: seq<HistoryRecord>, users: map<UserId, string>, nextHistoryId: nat)
  {
    forall k :: 0 <= k < |history| ==> history[k].user in users && history[k].id < nextHistoryId
  }

  /** Usernames are unique, so `User.objects.get(username=...)` finds at most one user. */
  ghost predicate UsernamesDistinct(users: map<UserId, string>)
  {
    forall a, b :: a in users && b in users && a != b ==> users[a] != users[b]
  }

  /** What every operation keeps of an existing link: its identity, owner and permission, and revocation. */
  ghost predicate LinksEvolve(before: map<Token, ShareLink>, after: map<Token, ShareLink>)
  {
    forall t :: t in before ==>
      && t in after
      && after[t].resource == before[t].resource
      && after[t].createdBy == before[t].createdBy
      && after[t].permission == before[t].permission
      && (before[t].revoked ==> after[t].revoked)
  }

  /** Replacing an invite by one with the same inviter, and `responded` matching the status, keeps invites consistent. */
  lemma SetInviteConsistent(shares: map<Token, ShareLink>, invites: map<Pair, ShareInvite>, n: nat, p: Pair, inv: ShareInvite)
    requires InvitesConsistent(shares, invites, n)
    requires p in invites && inv.id == invites[p].id && inv.invitedBy == invites[p].invitedBy
    requires inv.responded <==> inv.status != Pending
    ensures InvitesConsistent(shares, invites[p := inv], n)
  {
  }

  /** Replacing an invite by one with the same id keeps ids distinct. */
  lemma SetInviteDistinct(invites: map<Pair, ShareInvite>, p: Pair, inv: ShareInvite)
    requires InviteIdsDistinct(invites)
    requires p in invites && inv.id == invites[p].id
    ensures InviteIdsDistinct(invites[p := inv])
  {
  }

  /** The pair's membership follows its new invite status: present, added by the owner, iff accepted. */
  lemma SetInviteMembers(shares: map<Token, ShareLink>, members: map<Pair, ShareMember>, invites: map<Pair, ShareInvite>,
                         p: Pair, inv: ShareInvite, members2: map<Pair, ShareMember>)
    requires MembersMatchInvites(shares, members, invites)
    requires p.0 in shares && inv.invitedBy == shares[p.0].createdBy
    requires inv.status == Accepted ==> members2 == members[p := NewMember(inv.invitedBy)]
    requires inv.status != Accepted ==> members2 == members - {p}
    ensures MembersMatchInvites(shares, members2, invites[p := inv])
  {
  }

  /** A pending invite from the owner, under the pair's old id or the next fresh one, keeps invites consistent. */
  lemma ReopenConsistent(shares: map<Token, ShareLink>, invites: map<Pair, ShareInvite>, n: nat, p: Pair, inv: ShareInvite, n2: nat)
    requires InvitesConsistent(shares, invites, n)
    requires p.0 in shares && p.1 != shares[p.0].createdBy
    requires inv.invitedBy == shares[p.0].createdBy && inv.status == Pending && !inv.responded
    requires n <= n2 && inv.id < n2
    ensures InvitesConsistent(shares, invites[p := inv], n2)
  {
  }

  /** Storing an invite under the pair's old id, or under a fresh id, keeps ids distinct. */
  lemma ReopenDistinct(invites: map<Pair, ShareInvite>, n: nat, p: Pair, inv: ShareInvite)
    requires InviteIdsDistinct(invites) && forall q :: q in invites ==> invites[q].id < n
    requires p in invites ==> inv.id == invites[p].id
    requires p !in invites ==> inv.id == n
    ensures InviteIdsDistinct(invites[p := inv])
  {
  }

  /** `ShareLinkCreateView.post` request validation, before any lookup. */
  function LinkRequest(resourceType: Option<string>, permission: Option<string>,
                       sessionId: Option<string>, noteId: Option<nat>): (r: Result<(Resource, Permission)>)
    ensures ParseKind(resourceType).None? ==> r == Err(InvalidResourceType)
    ensures ParseKind(resourceType).Some? && ParsePermission(permission).None? ==> r == Err(InvalidPermission)
    ensures r.Ok? ==> (ParseKind(resourceType) == Some(r.value.0.Kind())
                       && ParsePermission(permission) == Some(r.value.1))
    ensures r.Ok? && r.value.0.ChatSession? ==> sessionId == Some(r.value.0.sessionId) && r.value.0.sessionId != ""
    ensures r.Ok? && r.value.0.SharedNote? ==> noteId == Some(r.value.0.noteId) && r.value.0.noteId != 0
    ensures r.Err? ==> r.failure in {InvalidResourceType, InvalidPermission, SessionIdRequired, NoteIdRequired}
    ensures ParseKind(resourceType) == Some(ChatKind) && ParsePermission(permission).Some? ==>
      r == (if sessionId.None? || sessionId.value == "" then Err(SessionIdRequired)
            else Ok((ChatSession(sessionId.value), ParsePermission(permission).value)))
    ensures ParseKind(resourceType) == Some(NoteKind) && ParsePermission(permission).Some? ==>
      r == (if noteId.None? || noteId.value == 0 then Err(NoteIdRequired)
            else Ok((SharedNote(noteId.value), ParsePermission(permission).value)))
  {
    var kind := ParseKind(resourceType);
    var perm := ParsePermission(permission);
    if kind.None? then Err(InvalidResourceType)
    else if perm.None? then Err(InvalidPermission)
    else if kind.value == ChatKind then
      if sessionId.None? || sessionId.value == "" then Err(SessionIdRequired)
      else Ok((ChatSession(sessionId.value), perm.value))
    else
      if noteId.None? || noteId.value == 0 then Err(NoteIdRequired)
      else Ok((SharedNote(noteId.value), perm.value))
  }

  /** What `_share_members_payload` lists and the share detail view returns. */
  datatype Detail = Detail(
    link: ShareLink,
    members: set<UserId>,
    messages: seq<DisplayMessage>,
    note: Option<Note>,
    owner: UserId,
    ownerName: string)

  class ShareStore {
    var shares: map<Token, ShareLink>
    var members: map<Pair, ShareMember>
    var invites: map<Pair, ShareInvite>
    var history: seq<HistoryRecord>
    var nextToken: nat
    var nextInviteId: nat
    var nextHistoryId: nat
    /** The user table (id to username); the sharing views never change it. */
    const users: map<UserId, string>
    /** The note table shared with the notes views. */
    const noteTable: NoteTable

    ghost predicate Valid()
      reads this, noteTable
    {
      && noteTable.Valid()
      && LinksFresh(shares, nextToken)
      && DistinctActiveLinks(shares)
      && InvitesConsistent(shares, invites, nextInviteId)
      && InviteIdsDistinct(invites)
      && MembersMatchInvites(shares, members, invites)
      && HistoryConsistent(history, users, nextHistoryId)
      && UsernamesDistinct(users)
    }

    constructor (users: map<UserId, string>, noteTable: NoteTable)
      requires noteTable.Valid() && UsernamesDistinct(users)
      ensures Valid()
      ensures this.users == users && this.noteTable == noteTable
      ensures shares == map[] && members == map[] && invites == map[] && history == []
    {
      this.users := users;
      this.noteTable := noteTable;
      shares := map[];
      members := map[];
      invites := map[];
      history := [];
      nextToken := 0;
      nextInviteId := 0;
      nextHistoryId := 0;
    }

    // -------------------------------------------------------------- gates

    /** `_get_active_share(token)`: the link, unless it is absent or revoked. */
    function ActiveShare(token: Token): (r: Option<ShareLink>)
      reads this
      ensures r.Some? <==> token in shares && shares[token].IsActive()
      ensures r.Some? ==> r.value == shares[token]
    {
      if token in shares && !shares[token].revoked then Some(shares[token]) else None
    }

    /** The owner-or-member test every share-scoped view applies. */
    predicate IsOwnerOrMember(token: Token, caller: UserId)
      reads this
      requires token in shares
    {
      shares[token].createdBy == caller || (token, caller) in members
    }

    /** The token names an active link of the given kind whose note, for note links, still exists. */
    predicate Reachable(token: Token, kind: ResourceKind)
      reads this, noteTable
    {
      && ActiveShare(token).Some?
      && shares[token].resource.Kind() == kind
      && (kind == NoteKind ==> shares[token].resource.noteId in noteTable.notes)
    }

    /** The gate of the GET views of `SharedChatView` and `SharedNoteView`. */
    function ReadGate(token: Token, caller: UserId, kind: ResourceKind): (r: Result<ShareLink>)
      reads this, noteTable
      ensures r.Ok? <==> Reachable(token, kind) && IsOwnerOrMember(token, caller)
      ensures r.Ok? ==> r.value == shares[token]
      ensures r.Err? ==> r.failure == (if Reachable(token, kind) then NotAllowed else ShareNotFound)
    {
      if !Reachable(token, kind) then Err(ShareNotFound)
      else if !IsOwnerOrMember(token, caller) then Err(NotAllowed)
      else Ok(shares[token])
    }

    /** The gate of `SharedChatView.post` and `SharedNoteView.put`: permission first, then owner-or-member. */
    function WriteGate(token: Token, caller: UserId, kind: ResourceKind): (r: Result<ShareLink>)
      reads this, noteTable
      ensures r.Ok? <==> Reachable(token, kind) && shares[token].permission == Collab && IsOwnerOrMember(token, caller)
      ensures r.Ok? ==> r.value == shares[token]
      ensures !Reachable(token, kind) ==> r == Err(ShareNotFound)
      ensures Reachable(token, kind) && shares[token].permission != Collab ==> r == Err(ReadOnlyShare)
      ensures Reachable(token, kind) && shares[token].permission == Collab && !IsOwnerOrMember(token, caller) ==>
        r == Err(NotAllowed)
    {
      if !Reachable(token, kind) then Err(ShareNotFound)
      else if shares[token].permission != Collab then Err(ReadOnlyShare)
      else if !IsOwnerOrMember(token, caller) then Err(NotAllowed)
      else Ok(shares[token])
    }

    /** The gate of `ShareLinkDetailView.get`: a non-member with a pending invite is told to accept it. */
    function DetailGate(token: Token, caller: UserId): (r: Result<ShareLink>)
      reads this
      ensures r.Ok? <==> ActiveShare(token).Some? && IsOwnerOrMember(token, caller)
      ensures r.Ok? ==> r.value == shares[token]
      ensures r.Err? && r.failure.InviteRequired? ==>
        (token, caller) in invites && invites[(token, caller)].status == Pending
        && r.failure.inviteId == invites[(token, caller)].id
      ensures ActiveShare(token).None? ==> r == Err(ShareNotFound)
      ensures ActiveShare(token).Some? && !IsOwnerOrMember(token, caller) ==>
        r == (if (token, caller) in invites && invites[(token, caller)].status == Pending
              then Err(InviteRequired(invites[(token, caller)].id)) else Err(NotAllowed))
    {
      if ActiveShare(token).None? then Err(ShareNotFound)
      else if IsOwnerOrMember(token, caller) then Ok(shares[token])
      else if (token, caller) in invites && invites[(token, caller)].status == Pending then
        Err(InviteRequired(invites[(token, caller)].id))
      else Err(NotAllowed)
    }

    /** The users holding a membership of `token`. */
    function MembersOf(token: Token): (r: set<UserId>)
      reads this
      ensures forall u :: u in r <==> (token, u) in members
    {
      set p | p in members && p.0 == token :: p.1
    }

    // ----------------------------------------------------- read-only views

    /** `_chat_messages_for_session(session_id)`: the session's records replayed in order. */
    method ChatMessagesForSession(sid: string) returns (messages: seq<DisplayMessage>)
      ensures messages == Transcript(SessionRecords(history, sid), users)
    {
      var items := history;
      messages := [];
      var i := 0;
      while i < |items|
        invariant 0 <= i <= |items|
        invariant messages == Transcript(SessionRecords(items[..i], sid), users)
      {
        var item := items[i];
        ReplayStep(items, i, sid, users);
        if SessionKey in item.input && item.input[SessionKey] == sid {
          messages := messages + [QuestionMessage(item, users), AnswerMessage(item)];
        }
        i := i + 1;
      }
      assert items[..|items|] == items;
    }

    /** `ShareLinkDetailView.get`: the link, its members, and the chat replay or the note. */
    method GetDetail(token: Token, caller: UserId) returns (r: Result<Detail>)
      ensures DetailGate(token, caller).Err? ==> r == Err(DetailGate(token, caller).failure)
      ensures DetailGate(token, caller).Ok? ==> r.Ok?
      ensures r.Ok? ==> var link := shares[token];
        && r.value.link == link
        && r.value.members == MembersOf(token)
        && r.value.owner == link.createdBy
        && r.value.ownerName == Username(users, link.createdBy)
        && (link.resource.ChatSession? ==>
              r.value.messages == Transcript(SessionRecords(history, link.resource.sessionId), users)
              && r.value.note == None)
        && (link.resource.SharedNote? ==>
              r.value.messages == []
              && r.value.note == (if link.resource.noteId in noteTable.notes
                                  then Some(noteTable.notes[link.resource.noteId]) else None))
    {
      var gate := DetailGate(token, caller);
      if gate.Err? {
        return Err(gate.failure);
      }
      var link := gate.value;
      var messages: seq<DisplayMessage> := [];
      var note: Option<Note> := None;
      if link.resource.ChatSession? {
        messages := ChatMessagesForSession(link.resource.sessionId);
      } else if link.resource.noteId in noteTable.notes {
        note := Some(noteTable.notes[link.resource.noteId]);
      }
      r := Ok(Detail(link, MembersOf(token), messages, note, link.createdBy, Username(users, link.createdBy)));
    }

    /** `ShareMembersView.get`: the members, for the owner or a member. */
    function ListMembers(token: Token, caller: UserId): (r: Result<set<UserId>>)
      reads this
      ensures r.Ok? <==> ActiveShare(token).Some? && IsOwnerOrMember(token, caller)
      ensures r.Ok? ==> r.value == MembersOf(token)
      ensures r.Err? ==> r.failure == (if ActiveShare(token).Some? then NotAllowed else ShareNotFound)
    {
      if ActiveShare(token).None? then Err(ShareNotFound)
      else if !IsOwnerOrMember(token, caller) then Err(NotAllowed)
      else Ok(MembersOf(token))
    }

    /** `SharedChatView.get`: the replay and the permission, for the owner or a member. */
    method GetSharedChat(token: Token, caller: UserId) returns (r: Result<(seq<DisplayMessage>, Permission)>)
      ensures ReadGate(token, caller, ChatKind).Err? ==> r == Err(ReadGate(token, caller, ChatKind).failure)
      ensures ReadGate(token, caller, ChatKind).Ok? ==>
        r == Ok((Transcript(SessionRecords(history, shares[token].resource.sessionId), users), shares[token].permission))
    {
      var gate := ReadGate(token, caller, ChatKind);
      if gate.Err? {
        return Err(gate.failure);
      }
      var messages := ChatMessagesForSession(gate.value.resource.sessionId);
      r := Ok((messages, gate.value.permission));
    }

    /** `SharedNoteView.get`: the note and the permission, for the owner or a member. */
    function GetSharedNote(token: Token, caller: UserId): (r: Result<(Note, Permission)>)
      reads this, noteTable
      ensures r.Ok? <==> ReadGate(token, caller, NoteKind).Ok?
      ensures r.Err? ==> r.failure == ReadGate(token, caller, NoteKind).failure
      ensures r.Ok? ==> r.value == (noteTable.notes[shares[token].resource.noteId], shares[token].permission)
    {
      var gate := ReadGate(token, caller, NoteKind);
      if gate.Err? then Err(gate.failure)
      else Ok((noteTable.notes[gate.value.resource.noteId], gate.value.permission))
    }

    /** `ShareLinkListView.get`: the caller's active links, narrowed by the filters that are given. */
    function ListLinks(caller: UserId, resourceType: Option<string>, sessionId: Option<string>, noteId: Option<nat>): (r: set<Token>)
      reads this
      ensures forall t :: t in r <==>
        && t in shares && shares[t].createdBy == caller && shares[t].IsActive()
        && (resourceType.Some? && resourceType.value != "" ==> KindName(shares[t].resource.Kind()) == resourceType.value)
        && (sessionId.Some? && sessionId.value != "" ==> shares[t].resource == ChatSession(sessionId.value))
        && (noteId.Some? ==> shares[t].resource == SharedNote(noteId.value))
    {
      set t | t in shares && shares[t].createdBy == caller && !shares[t].revoked
        && (resourceType.Some? && resourceType.value != "" ==> KindName(shares[t].resource.Kind()) == resourceType.value)
        && (sessionId.Some? && sessionId.value != "" ==> shares[t].resource == ChatSession(sessionId.value))
        && (noteId.Some? ==> shares[t].resource == SharedNote(noteId.value))
    }

    /** `ShareInviteListView.get`: ids of the caller's pending invites (the link's state is not consulted). */
    function PendingInvites(caller: UserId): (r: set<nat>)
      reads this
      ensures forall id :: id in r <==> exists p :: p in invites && p.1 == caller && invites[p].status == Pending && invites[p].id == id
    {
      set p | p in invites && p.1 == caller && invites[p].status == Pending :: invites[p].id
    }

    // ---------------------------------------------------- state-changing views

    /**
     * `ShareLinkCreateView.post`. Validation failures change nothing. For a chat,
     * when the caller has no record of the session, their listed records are
     * retagged first (and stay retagged even if the request then fails). An
     * active link with the same owner, resource and permission is returned
     * instead of creating another.
     */
    method CreateLink(caller: UserId, resourceType: Option<string>, permission: Option<string>,
                      sessionId: Option<string>, noteId: Option<nat>, historyIds: seq<nat>)
      returns (r: Result<Token>)
      requires Valid()
      modifies this
      ensures Valid()
      ensures members == old(members) && invites == old(invites) && nextInviteId == old(nextInviteId)
      ensures nextHistoryId == old(nextHistoryId)
      ensures LinksEvolve(old(shares), shares)
      ensures var req := LinkRequest(resourceType, permission, sessionId, noteId);
        && (req.Err? ==> r == Err(req.failure) && shares == old(shares) && history == old(history) && nextToken == old(nextToken))
        && (req.Ok? && req.value.0.ChatSession? ==>
              var sid := req.value.0.sessionId;
              && history == (if !HasSession(old(history), caller, sid) && historyIds != []
                             then Retag(old(history), caller, historyIds, sid) else old(history))
              && (HasSession(history, caller, sid) <==> r.Ok?)
              && (r.Err? ==> r.failure == ChatSessionNotFound && shares == old(shares)))
        && (req.Ok? && req.value.0.SharedNote? ==>
              var id := req.value.0.noteId;
              && history == old(history)
              && (id in noteTable.notes && noteTable.notes[id].user == caller <==> r.Ok?)
              && (r.Err? ==> r.failure == NoteNotFound && shares == old(shares)))
        && (r.Ok? ==> req.Ok?)
        && (r.Ok? && req.Ok? ==>
              var link := ShareLink(req.value.0, caller, req.value.1, false);
              && r.value in shares && shares[r.value] == link
              && (if exists t :: t in old(shares) && old(shares)[t] == link
                  then r.value in old(shares) && shares == old(shares) && nextToken == old(nextToken)
                  else r.value == old(nextToken) && shares == old(shares)[r.value := link]
                       && nextToken == old(nextToken) + 1))
    {
      var req := LinkRequest(resourceType, permission, sessionId, noteId);
      if req.Err? {
        return Err(req.failure);
      }
      var (resource, perm) := req.value;
      if resource.ChatSession? {
        var found := EnsureChatSession(caller, resource.sessionId, historyIds);
        if !found {
          return Err(ChatSessionNotFound);
        }
      } else {
        var id := resource.noteId;
        if !(id in noteTable.notes && noteTable.notes[id].user == caller) {
          return Err(NoteNotFound);
        }
      }
      var t := FindOrAddLink(ShareLink(resource, caller, perm, false));
      r := Ok(t);
    }

    /**
     * The chat branch of `ShareLinkCreateView.post`: when the caller has no record
     * of `sid`, retag the listed records; report whether the session now exists.
     */
    method EnsureChatSession(caller: UserId, sid: string, historyIds: seq<nat>) returns (found: bool)
      requires HistoryConsistent(history, users, nextHistoryId)
      modifies this`history
      ensures HistoryConsistent(history, users, nextHistoryId)
      ensures history == (if !HasSession(old(history), caller, sid) && historyIds != []
                          then Retag(old(history), caller, historyIds, sid) else old(history))
      ensures found == HasSession(history, caller, sid)
    {
      found := HasSessionNow(caller, sid);
      if !found && historyIds != [] {
        RetagHistory(caller, historyIds, sid);
        found := HasSessionNow(caller, sid);
      }
    }

    /** Returns an equal active link if there is one, otherwise stores the link under a fresh token. */
    method FindOrAddLink(link: ShareLink) returns (t: Token)
      requires Valid() && link.IsActive()
      modifies this`shares, this`nextToken
      ensures Valid()
      ensures LinksEvolve(old(shares), shares)
      ensures t in shares && shares[t] == link
      ensures if exists u :: u in old(shares) && old(shares)[u] == link
              then t in old(shares) && shares == old(shares) && nextToken == old(nextToken)
              else t == old(nextToken) && shares == old(shares)[t := link] && nextToken == old(nextToken) + 1
    {
      if u :| u in shares && shares[u] == link {
        t := u;
      } else {
        t := nextToken;
        shares := shares[t := link];
        nextToken := nextToken + 1;
      }
    }

    /** Searches the history for a record of the caller tagged with the session id. */
    method HasSessionNow(caller: UserId, sid: string) returns (found: bool)
      ensures found == HasSession(history, caller, sid)
    {
      found := false;
      var i := 0;
      while i < |history|
        invariant 0 <= i <= |history|
        invariant found <==> exists k :: 0 <= k < i && history[k].user == caller && SessionOf(history[k]) == Some(sid)
      {
        if history[i].user == caller && SessionOf(history[i]) == Some(sid) {
          found := true;
        }
        i := i + 1;
      }
    }

    /** The `for item in histories` loop: tag the caller's listed records with `sid`. */
    method RetagHistory(caller: UserId, ids: seq<nat>, sid: string)
      requires HistoryConsistent(history, users, nextHistoryId)
      modifies this`history
      ensures history == Retag(old(history), caller, ids, sid)
      ensures HistoryConsistent(history, users, nextHistoryId)
    {
      ghost var before := history;
      var h := history;
      var i := 0;
      while i < |h|
        invariant 0 <= i <= |h| && |h| == |before|
        invariant forall k :: 0 <= k < i ==>
          h[k] == if Selected(before[k], caller, ids) then Tagged(before[k], sid) else before[k]
        invariant forall k :: i <= k < |h| ==> h[k] == before[k]
      {
        if h[i].user == caller && h[i].id in ids {
          h := h[i := Tagged(h[i], sid)];
        }
        i := i + 1;
      }
      history := h;
    }

    /** `ShareLinkRevokeView.post`: only the owner of an active link may revoke it; revocation is final. */
    method Revoke(token: Token, caller: UserId) returns (r: Result<()>)
      requires Valid()
      modifies this`shares
      ensures Valid()
      ensures LinksEvolve(old(shares), shares)
      ensures var ok := token in old(shares) && old(shares)[token].IsActive() && old(shares)[token].createdBy == caller;
        && (ok ==> r == Ok(()) && shares == old(shares)[token := old(shares)[token].(revoked := true)])
        && (!ok ==> r == Err(ShareNotFound) && shares == old(shares))
      ensures r.Ok? ==> ActiveShare(token).None?
    {
      var share := ActiveShare(token);
      if share.None? || share.value.createdBy != caller {
        return Err(ShareNotFound);
      }
      shares := shares[token := share.value.(revoked := true)];
      r := Ok(());
    }

    /** `ShareMembersView.delete`: drop one membership and revoke every invite of that pair. */
    method RemoveMember(token: Token, caller: UserId, user: UserId) returns (r: Result<()>)
      requires Valid()
      modifies this`members, this`invites
      ensures Valid()
      ensures var ok := ActiveShare(token).Some? && shares[token].createdBy == caller;
        var p := (token, user);
        && (ok ==> (r == Ok(())
              && members == old(members) - {p}
              && invites == (if p in old(invites)
                             then old(invites)[p := old(invites)[p].(status := Revoked, responded := true)]
                             else old(invites))))
        && (!ok ==> r == Err(ShareNotFound) && members == old(members) && invites == old(invites))
    {
      var share := ActiveShare(token);
      if share.None? || share.value.createdBy != caller {
        return Err(ShareNotFound);
      }
      var p := (token, user);
      if p in invites {
        var done := invites[p].(status := Revoked, responded := true);
        SetInviteConsistent(shares, invites, nextInviteId, p, done);
        SetInviteDistinct(invites, p, done);
        SetInviteMembers(shares, members, invites, p, done, members - {p});
      } else {
        assert members - {p} == members;
      }
      members := members - {p};
      if p in invites {
        invites := invites[p := invites[p].(status := Revoked, responded := true)];
      }
      r := Ok(());
    }

    /**
     * `ShareInviteCreateView.post`: the owner invites a user by name. The target's
     * membership is dropped and their invite is (re)set to pending; a pending
     * invite is left as it is, keeping its inviter.
     */
    method CreateInvite(token: Token, caller: UserId, username: Option<string>) returns (r: Result<nat>)
      requires Valid()
      modifies this`members, this`invites, this`nextInviteId
      ensures Valid()
      ensures var name := Strip(if username.Some? then username.value else "");
        && (ActiveShare(token).None? || shares[token].createdBy != caller ==>
              r == Err(ShareNotFound))
        && (ActiveShare(token).Some? && shares[token].createdBy == caller && name == "" ==>
              r == Err(UsernameRequired))
        && (ActiveShare(token).Some? && shares[token].createdBy == caller && name != ""
            && (forall u :: u in users ==> users[u] != name) ==>
              r == Err(UserNotFound))
        && (ActiveShare(token).Some? && shares[token].createdBy == caller && name != "" && caller in users && users[caller] == name ==>
              r == Err(AlreadyOwner))
        && (r.Err? ==> members == old(members) && invites == old(invites) && nextInviteId == old(nextInviteId))
        && (r.Ok? ==> exists u :: u in users && users[u] == name && u != caller && InvitedOutcome(token, u, caller, r.value))
      ensures r.Ok? ==> ActiveShare(token).Some? && shares[token].createdBy == caller
      ensures var name := Strip(if username.Some? then username.value else "");
        (ActiveShare(token).Some? && shares[token].createdBy == caller && name != ""
         && (exists u :: u in users && users[u] == name && u != caller)) ==> r.Ok?
    {
      var share := ActiveShare(token);
      if share.None? || share.value.createdBy != caller {
        return Err(ShareNotFound);
      }
      var name := Strip(if username.Some? then username.value else "");
      if name == "" {
        return Err(UsernameRequired);
      }
      if u :| u in users && users[u] == name {
        if u == caller {
          return Err(AlreadyOwner);
        }
        r := ReopenInvite(token, u, caller);
      } else {
        return Err(UserNotFound);
      }
    }

    /** The success path of `ShareInviteCreateView.post`: drop the membership, then get-or-create and reopen the invite. */
    method ReopenInvite(token: Token, u: UserId, caller: UserId) returns (r: Result<nat>)
      requires Valid()
      requires token in shares && shares[token].createdBy == caller && u != caller
      modifies this`members, this`invites, this`nextInviteId
      ensures Valid()
      ensures r.Ok? && InvitedOutcome(token, u, caller, r.value)
    {
      var p := (token, u);
      var inv, next;
      if p !in invites {
        inv, next := NewInvite(nextInviteId, caller), nextInviteId + 1;
      } else if invites[p].status != Pending {
        inv, next := invites[p].(status := Pending, invitedBy := caller, responded := false), nextInviteId;
      } else {
        inv, next := invites[p], nextInviteId;
      }
      ReopenConsistent(shares, invites, nextInviteId, p, inv, next);
      ReopenDistinct(invites, nextInviteId, p, inv);
      SetInviteMembers(shares, members, invites, p, inv, members - {p});
      members := members - {p};
      invites := invites[p := inv];
      nextInviteId := next;
      r := Ok(inv.id);
    }

    /** After a successful invite of `u`: no membership for the pair, one pending invite with id `id`. */
    twostate predicate InvitedOutcome(token: Token, u: UserId, caller: UserId, id: nat)
      reads this
    {
      var p := (token, u);
      && members == old(members) - {p}
      && p in invites && invites[p].status == Pending && invites[p].id == id
      && (p !in old(invites) ==>
            invites == old(invites)[p := NewInvite(old(nextInviteId), caller)] && nextInviteId == old(nextInviteId) + 1)
      && (p in old(invites) && old(invites)[p].status == Pending ==>
            invites == old(invites) && nextInviteId == old(nextInviteId))
      && (p in old(invites) && old(invites)[p].status != Pending ==>
            invites == old(invites)[p := old(invites)[p].(status := Pending, invitedBy := caller, responded := false)]
            && nextInviteId == old(nextInviteId))
    }

    /**
     * `ShareInviteActionView.post`: the invited user accepts or declines a pending
     * invite. The link's revocation is not consulted.
     */
    method ActOnInvite(inviteId: nat, caller: UserId, action: Option<string>) returns (r: Result<InviteStatus>)
      requires Valid()
      modifies this`members, this`invites
      ensures Valid()
      ensures (forall p :: p in old(invites) ==> old(invites)[p].id != inviteId || p.1 != caller) ==>
        r == Err(InviteNotFound) && members == old(members) && invites == old(invites)
      ensures forall p :: p in old(invites) && old(invites)[p].id == inviteId && p.1 == caller ==>
        var inv := old(invites)[p];
        && (inv.status != Pending ==>
              r == Err(InviteAlreadyHandled) && members == old(members) && invites == old(invites))
        && (inv.status == Pending && action == Some("accept") ==>
              && r == Ok(Accepted)
              && p !in old(members)
              && members == old(members)[p := NewMember(inv.invitedBy)]
              && invites == old(invites)[p := inv.(status := Accepted, responded := true)])
        && (inv.status == Pending && action == Some("decline") ==>
              && r == Ok(Declined)
              && members == old(members)
              && invites == old(invites)[p := inv.(status := Declined, responded := true)])
        && (inv.status == Pending && action != Some("accept") && action != Some("decline") ==>
              r == Err(InvalidAction) && members == old(members) && invites == old(invites))
    {
      if p :| p in invites && invites[p].id == inviteId && p.1 == caller {
        var inv := invites[p];
        if inv.status != Pending {
          return Err(InviteAlreadyHandled);
        }
        if action == Some("accept") {
          Accept(p);
          return Ok(Accepted);
        }
        if action == Some("decline") {
          Decline(p);
          return Ok(Declined);
        }
        return Err(InvalidAction);
      }
      return Err(InviteNotFound);
    }

    /** Accepting a pending invite: `get_or_create` the membership, then mark the invite accepted. */
    method Accept(p: Pair)
      requires Valid() && p in invites && invites[p].status == Pending
      modifies this`members, this`invites
      ensures Valid()
      ensures p !in old(members)
      ensures members == old(members)[p := NewMember(old(invites)[p].invitedBy)]
      ensures invites == old(invites)[p := old(invites)[p].(status := Accepted, responded := true)]
    {
      var inv := invites[p];
      var done := inv.(status := Accepted, responded := true);
      SetInviteConsistent(shares, invites, nextInviteId, p, done);
      SetInviteDistinct(invites, p, done);
      SetInviteMembers(shares, members, invites, p, done, members[p := NewMember(inv.invitedBy)]);
      if p !in members {
        members := members[p := NewMember(inv.invitedBy)];
      }
      invites := invites[p := inv.(status := Accepted, responded := true)];
    }

    /** Declining a pending invite: mark it declined; memberships are untouched. */
    method Decline(p: Pair)
      requires Valid() && p in invites && invites[p].status == Pending
      modifies this`invites
      ensures Valid()
      ensures invites == old(invites)[p := old(invites)[p].(status := Declined, responded := true)]
    {
      var done := invites[p].(status := Declined, responded := true);
      assert members - {p} == members;
      SetInviteConsistent(shares, invites, nextInviteId, p, done);
      SetInviteDistinct(invites, p, done);
      SetInviteMembers(shares, members, invites, p, done, members);
      invites := invites[p := done];
    }

    /**
     * `SharedChatView.post`: on a collab chat link, the owner or a member adds a
     * message; the answer of the completion service is stored as a new record of
     * the link's session.
     */
    method PostSharedChat(token: Token, caller: UserId, message: Option<string>, mode: Option<string>,
                          completion: Option<Completion>) returns (r: Result<string>)
      requires Valid() && caller in users
      modifies this`history, this`nextHistoryId
      ensures Valid()
      ensures WriteGate(token, caller, ChatKind).Err? ==>
        r == Err(WriteGate(token, caller, ChatKind).failure) && history == old(history)
      ensures WriteGate(token, caller, ChatKind).Ok? && Strip(MessageText(message)) == "" ==>
        r == Err(MessageRequired) && history == old(history)
      ensures WriteGate(token, caller, ChatKind).Ok? && Strip(MessageText(message)) != "" ==>
        var sid := shares[token].resource.sessionId;
        var record := HistoryRecord(old(nextHistoryId), caller, if mode.Some? then mode.value else "general",
                                    map["question" := Strip(MessageText(message)), SessionKey := sid], ExtractText(completion));
        && r == Ok(ExtractText(completion))
        && history == old(history) + [record]
        && SessionRecords(history, sid) == SessionRecords(old(history), sid) + [record]
    {
      var gate := WriteGate(token, caller, ChatKind);
      if gate.Err? {
        return Err(gate.failure);
      }
      var text := Strip(MessageText(message));
      if text == "" {
        return Err(MessageRequired);
      }
      var sid := gate.value.resource.sessionId;
      var answer := ExtractText(completion);
      var input := map["question" := text, SessionKey := sid];
      assert input[SessionKey] == sid;
      var _ := SaveHistory(caller, if mode.Some? then mode.value else "general", input, answer);
      r := Ok(answer);
    }

    /**
     * `_save_history`, and the record the shared chat creates: each exchange is stored
     * as a new history record of the caller under a fresh id; this is how chat
     * sessions come to exist.
     */
    method SaveHistory(user: UserId, mode: string, input: map<string, string>, response: string) returns (id: nat)
      requires Valid() && user in users
      modifies this`history, this`nextHistoryId
      ensures Valid()
      ensures id == old(nextHistoryId) && nextHistoryId == old(nextHistoryId) + 1
      ensures forall k :: 0 <= k < |old(history)| ==> old(history)[k].id < id
      ensures history == old(history) + [HistoryRecord(id, user, mode, input, response)]
      ensures forall sid :: (SessionRecords(history, sid) ==
        SessionRecords(old(history), sid) + (if SessionKey in input && input[SessionKey] == sid
                                             then [HistoryRecord(id, user, mode, input, response)] else []))
    {
      id := nextHistoryId;
      var record := HistoryRecord(id, user, mode, input, response);
      assert (history + [record])[..|history|] == history;
      history := history + [record];
      nextHistoryId := nextHistoryId + 1;
    }

    /**
     * `SharedNoteView.put`: on a collab note link, the owner or a member overwrites
     * the title, subject, category, tags and content that the request supplies.
     */
    method PutSharedNote(token: Token, caller: UserId, data: map<Field, string>) returns (r: Result<Note>)
      requires Valid()
      modifies noteTable
      ensures Valid()
      ensures noteTable.nextId == old(noteTable.nextId)
      ensures old(WriteGate(token, caller, NoteKind)).Err? ==>
        r == Err(old(WriteGate(token, caller, NoteKind)).failure) && noteTable.notes == old(noteTable.notes)
      ensures old(WriteGate(token, caller, NoteKind)).Ok? ==>
        var id := shares[token].resource.noteId;
        var n := Overwritten(old(noteTable.notes)[id], PutData(data));
        && r == Ok(n)
        && noteTable.notes == old(noteTable.notes)[id := n]
    {
      var gate := WriteGate(token, caller, NoteKind);
      if gate.Err? {
        return Err(gate.failure);
      }
      var id := gate.value.resource.noteId;
      var note := noteTable.notes[id];
      note := note.(title := if TitleField in data then data[TitleField] else note.title);
      note := note.(subject := if SubjectField in data then data[SubjectField] else note.subject);
      note := note.(category := if CategoryField in data then data[CategoryField] else note.category);
      note := note.(tags := if TagsField in data then data[TagsField] else note.tags);
      note := note.(content := if ContentField in data then data[ContentField] else note.content);
      UniqueAfterSameKey(noteTable.notes, id, note);
      noteTable.notes := noteTable.notes[id := note];
      r := Ok(note);
    }

    // ------------------------------------------------------ gate properties

    /** A read-only link refuses every write, its owner's included, while still letting the owner read. */
    lemma ReadOnlyRefusesOwner(token: Token, kind: ResourceKind)
      requires Reachable(token, kind) && shares[token].permission == Read
      ensures forall caller :: WriteGate(token, caller, kind) == Err(ReadOnlyShare)
      ensures ReadGate(token, shares[token].createdBy, kind).Ok?
    {
    }

    /** Whoever may write through a link may also read through it. */
    lemma WriteAccessImpliesReadAccess(token: Token, caller: UserId, kind: ResourceKind)
      ensures WriteGate(token, caller, kind).Ok? ==> ReadGate(token, caller, kind).Ok?
    {
    }

    /** A revoked or unknown token is "not found" to every gate, membership notwithstanding. */
    lemma InactiveLinkIsNotFound(token: Token, caller: UserId, kind: ResourceKind)
      requires ActiveShare(token).None?
      ensures ReadGate(token, caller, kind) == Err(ShareNotFound)
      ensures WriteGate(token, caller, kind) == Err(ShareNotFound)
      ensures DetailGate(token, caller) == Err(ShareNotFound)
      ensures ListMembers(token, caller) == Err(ShareNotFound)
    {
    }

    /** In a valid store the owner of a link is never its member nor its invitee. */
    lemma OwnerIsNotInvited(token: Token)
      requires Valid() && token in shares
      ensures (token, shares[token].createdBy) !in members
      ensures (token, shares[token].createdBy) !in invites
    {
    }

    /** In a valid store, the detail view asks to accept an invite only of a caller who is not yet a member. */
    lemma InviteRequiredOnlyForOutsiders(token: Token, caller: UserId)
      requires Valid()
      ensures DetailGate(token, caller).Err? && DetailGate(token, caller).failure.InviteRequired? ==>
        token in shares && caller != shares[token].createdBy && (token, caller) !in members
    {
    }

    /** In a valid store, a member holds the accepted invite of their pair, sent by the link's owner. */
    lemma MemberWasInvitedByOwner(token: Token, user: UserId)
      requires Valid() && (token, user) in members
      ensures (token, user) in invites && invites[(token, user)].status == Accepted
      ensures token in shares && invites[(token, user)].invitedBy == shares[token].createdBy
      ensures members[(token, user)].addedBy == Some(shares[token].createdBy)
    {
    }

    // ------------------------------------------------------ listing properties

    /** Every listed token is an active link of the caller; revoked links are never listed. */
    lemma ListedLinksAreActive(caller: UserId, resourceType: Option<string>, sessionId: Option<string>, noteId: Option<nat>)
      ensures forall t :: t in ListLinks(caller, resourceType, sessionId, noteId) ==>
        ActiveShare(t).Some? && ActiveShare(t).value.createdBy == caller
      ensures forall t :: t in shares && shares[t].revoked ==> t !in ListLinks(caller, resourceType, sessionId, noteId)
    {
    }

    /** The filters given by the query parameters that name a link's own resource. */
    function OwnFilters(res: Resource): (f: (Option<string>, Option<string>, Option<nat>))
      ensures f.0 == Some(KindName(res.Kind()))
      ensures res.ChatSession? ==> f.1 == Some(res.sessionId) && f.2.None?
      ensures res.SharedNote? ==> f.1.None? && f.2 == Some(res.noteId)
    {
      match res
      case ChatSession(sid) => (Some(KindName(ChatKind)), Some(sid), None)
      case SharedNote(id) => (Some(KindName(NoteKind)), None, Some(id))
    }

    /**
     * An active link, such as the one `CreateLink` returns (whose session id is never
     * empty), is listed to its owner under the filters naming its resource, and
     * everything listed there shares that resource.
     */
    lemma ActiveLinkListedUnderOwnFilters(t: Token)
      requires ActiveShare(t).Some?
      requires shares[t].resource.ChatSession? ==> shares[t].resource.sessionId != ""
      ensures var f := OwnFilters(shares[t].resource);
        && t in ListLinks(shares[t].createdBy, f.0, f.1, f.2)
        && forall u :: u in ListLinks(shares[t].createdBy, f.0, f.1, f.2) ==> shares[u].resource == shares[t].resource
    {
      var f := OwnFilters(shares[t].resource);
      var l := ListLinks(shares[t].createdBy, f.0, f.1, f.2);
      forall u | u in l ensures shares[u].resource == shares[t].resource {
        if shares[t].resource.ChatSession? {
          assert shares[u].resource == ChatSession(shares[t].resource.sessionId);
        } else {
          assert shares[u].resource == SharedNote(shares[t].resource.noteId);
        }
      }
    }

    /**
     * A listed invite id names exactly one invite, the caller's pending one, so
     * `ActOnInvite` with "accept" accepts it; an id that is not listed is never a
     * pending invite of the caller, so acting on it is refused.
     */
    lemma ListedInviteIsPending(caller: UserId, id: nat)
      requires Valid()
      ensures id in PendingInvites(caller) ==>
        exists p :: p in invites && p.1 == caller && invites[p].id == id && invites[p].status == Pending
          && forall q :: q in invites && invites[q].id == id ==> q == p
      ensures id !in PendingInvites(caller) ==>
        forall p :: p in invites && p.1 == caller && invites[p].id == id ==> invites[p].status != Pending
    {
      if id in PendingInvites(caller) {
        var p :| p in invites && p.1 == caller && invites[p].status == Pending && invites[p].id == id;
        assert forall q :: q in invites && invites[q].id == id ==> q == p;
      }
    }
  }

  /** `request.data.get("message", "")`: an absent message reads as empty. */
  function MessageText(message: Option<string>): (s: string)
    ensures message.Some? ==> s == message.value
    ensures message.None? ==> s == ""
  {
    if message.Some? then message.value else ""
  }

  /** The request body of a shared-note PUT as serializer attributes; `client_id` is not read. */
  function PutData(data: map<Field, string>): (d: map<Field, Value>)
    ensures StorableData(d)
    ensures ClientIdField !in d
    ensures forall f :: f in d <==> f in data && f != ClientIdField
  {
    map f | f in data && f != ClientIdField :: Str(data[f])
  }
}
