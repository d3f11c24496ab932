# REE sharing, history and notes core in Dafny

This project models three pieces of logic of the REE study-assistant backend (a Django REST service):

- **Sharing and collaboration** (`sharing/views.py`, `sharing/models.py`). This is the heart of the model.
  - An owner creates share links (tokens) for a chat session or a note, with `read` or `collab` permission.
  - The owner invites other users by username. An invited user accepts or declines. The owner can remove members and revoke links.
  - Members and the owner read the shared chat or note through an access gate. On `collab` links they may also post to the chat or edit the note.
  - `ShareStore` is a class holding the links, memberships, invites and the chat history as maps and a sequence. Each view is one member: a method where the view changes the store, a function where it only reads it. Every method keeps the store invariant `Valid()`:
    1. tokens are fresh;
    2. there is at most one active link per (owner, resource, permission);
    3. invites point at existing links and are never addressed to the link's owner;
    4. invite ids identify invites;
    5. `responded_at` is set iff the invite is no longer pending;
    6. a membership exists exactly when the pair's invite is accepted;
    7. usernames are unique.
  - A membership or an invite is a map entry keyed by (share, user), so "one row per pair" holds by construction.
- **AI helpers** (`ai/views.py`):
  - history normalisation (a loop, proved against a recursive specification);
  - project-request detection;
  - subject-rule first-match dispatch;
  - completion text extraction;
  - the study and notes system prompts.
- **Notes serializer** (`notes/serializers.py`, `notes/models.py`):
  - tag decoding and encoding, with the round trip proved for clean, comma-free tags;
  - the two field validators;
  - `create`, an upsert on (user, client_id) that preserves uniqueness;
  - `update`, where tags are replaced only when supplied.

Python semantics are written out in module `Text`:
- `str.strip` uses Python's full whitespace set.
- `lower` is ASCII only.
- `split(",")`, `", ".join` and substring `in` follow Python.

`AiViews.PyTail` is Python's `s[-k:]`.

Two behaviours of the code are modelled as written:
- Accepting or declining an invite never looks at whether the link was revoked, so a revoked link can gain a member. `InactiveLinkIsNotFound` shows that the member still cannot reach it.
- The write gate checks `permission == collab` before membership, so a `read` link refuses writes from its own owner (`ReadOnlyRefusesOwner`).

Three behaviours of the code that a reader may not expect, modelled as written:
- Owners cannot write through their own read-only links.
- A non-owner's revoke answers 404 "not found" rather than 403.
- Invite actions do not check that the link is still active.

The completion service is a parameter: `PostSharedChat` receives the completion object and stores `ExtractText` of it.

Files: `common.dfy`, `text.dfy`, `ai_views.dfy`, `chat_history.dfy`, `notes.dfy`, `sharing_models.dfy`, `sharing_views.dfy`.
They are verified together.

## Model

| member | source | states |
|---|---|---|
| SharingModels.ParseKind | sharing/models.py:8-11 | a `resource_type` is accepted iff it is "chat" or "note", and reads back as the choice's name |
| SharingModels.ParsePermission | sharing/models.py:12-22 | an absent permission means `read`; a given one is accepted iff it is "read" or "collab" |
| SharingModels.ParseStatus | sharing/models.py:50-55 | a status is accepted iff it is one of pending/accepted/declined/revoked |
| SharingModels.ChoiceNamesRoundTrip | sharing/models.py:8-60 | every kind, permission and status name parses back to the same choice |
| SharingModels.NewInvite | sharing/models.py:57-62 | a new invite is pending and not yet answered |
| SharingModels.NewMember | sharing/models.py:36-41 | a new membership has role "collaborator" and records who added it |
| ChatHistory.UserContent | sharing/views.py:52-55 | the user's text is the first non-empty of question/notes/project_name, and "" iff all three are empty |
| ChatHistory.TranscriptShape | sharing/views.py:41-70 | n records replay as 2n messages; message 2k is record k's question and 2k+1 its answer |
| ChatHistory.TranscriptAlternates | sharing/views.py:47-69 | replayed messages alternate user, assistant, user, ... |
| ChatHistory.PairsAlternate | sharing/views.py:47-69 | a sequence of n (user, assistant) pairs has user roles exactly at even positions |
| ChatHistory.ReplayStep | sharing/views.py:45-69 | visiting one more record extends the replay by that record's two messages iff it belongs to the session |
| ChatHistory.SessionRecordsSelects | sharing/views.py:42-46 | the session selection holds exactly the records tagged with the session id |
| ChatHistory.Tagged | sharing/views.py:95-97 | a retagged record carries the session id and keeps its id, owner, mode, answer and every other input key |
| ChatHistory.TaggedKeepsInput | sharing/views.py:95-97 | tagging keeps each other input key with its value, so the record's question (`UserContent`) is unchanged |
| ChatHistory.Retag | sharing/views.py:91-98 | retagging changes only the caller's listed records, each by tagging it |
| ChatHistory.RetagSparesOthers | sharing/views.py:92 | records of other users are never retagged |
| ChatHistory.RetagFindsSession | sharing/views.py:87-100 | after retagging, the caller owns a record of the session iff they did before or listed one of their records |
| SharingViews.StatusCode | sharing/views.py:24-25 | not-found failures answer 404, forbidden ones 403, the rest 400 |
| SharingViews.LinkRequest | sharing/views.py:77-119 | request validation: bad resource type, then bad permission, then a missing session id or note id (note id 0 counts as missing); a valid chat request is Ok with its session and permission, a valid note request Ok with its note id and permission |
| SharingViews.PutData | sharing/views.py:347-352 | a note PUT supplies exactly the request's fields other than client_id |
| SharingViews.ShareStore.ActiveShare | sharing/views.py:28-33 | a link is found iff it exists and is not revoked |
| SharingViews.ShareStore.MembersOf | sharing/views.py:36-38 | the members of a link are exactly the users with a membership of it |
| SharingViews.ShareStore.ReadGate | sharing/views.py:231-236 | reads pass iff the link is active, of the right kind (with its note present), and the caller is owner or member; otherwise not-found before not-allowed |
| SharingViews.ShareStore.WriteGate | sharing/views.py:242-249 | writes pass iff the link is reachable, `collab`, and the caller is owner or member; otherwise not-found for an unreachable link, read-only on a reachable read link (for everyone, owner included), not-allowed for an outsider on a collab link |
| SharingViews.ShareStore.DetailGate | sharing/views.py:165-177 | the detail of an active link is shown iff the caller is owner or member; an inactive link is not-found; an outsider gets invite-required with their invite id if that invite is pending, else not-allowed |
| SharingViews.ShareStore.ChatMessagesForSession | sharing/views.py:41-70 | the loop builds exactly the replay of the session's records in order |
| SharingViews.ShareStore.GetDetail | sharing/views.py:162-189 | the detail holds the link, its members, the owner, and the chat replay or the note if it still exists |
| SharingViews.ShareStore.ListMembers | sharing/views.py:207-217 | members are listed to the owner or a member of an active link |
| SharingViews.ShareStore.GetSharedChat | sharing/views.py:231-240 | a permitted reader gets the session replay and the link's permission |
| SharingViews.ShareStore.GetSharedNote | sharing/views.py:325-335 | a permitted reader gets the note and the link's permission |
| SharingViews.ShareStore.ListLinks | sharing/views.py:145-159 | the caller's active links, narrowed by each filter that is given |
| SharingViews.ShareStore.PendingInvites | sharing/views.py:397-399 | the ids of the caller's pending invites, whatever the state of their links |
| SharingViews.ShareStore.ListedLinksAreActive | sharing/views.py:148 | every listed token is an active link of the caller; a revoked link is never listed |
| SharingViews.ShareStore.ActiveLinkListedUnderOwnFilters | sharing/views.py:143-155 | an active link such as `CreateLink` returns is listed to its owner under the filters naming its resource, and only links of that resource are |
| SharingViews.ShareStore.ListedInviteIsPending | sharing/views.py:397-424 | a listed id names exactly one invite, the caller's pending one, which `ActOnInvite` then accepts or declines; an unlisted id is never such an invite |
| SharingViews.ShareStore.CreateLink | sharing/views.py:76-139 | validation errors change nothing; a chat link needs a caller-owned record of the session after optional retagging; a note link needs the caller's note; an equal active link is returned instead of adding one |
| SharingViews.ShareStore.EnsureChatSession | sharing/views.py:87-100 | retags only when the caller has no record of the session and listed ids; reports whether the session now exists |
| SharingViews.ShareStore.HasSessionNow | sharing/views.py:87 | the search finds the caller's record of the session iff one exists |
| SharingViews.ShareStore.RetagHistory | sharing/views.py:91-98 | the loop leaves the history equal to its retagged form |
| SharingViews.ShareStore.FindOrAddLink | sharing/views.py:101-114 | returns the existing equal active link unchanged, or adds it under a fresh token |
| SharingViews.ShareStore.Revoke | sharing/views.py:195-201 | only the owner of an active link revokes it; anyone else gets not-found and nothing changes; a revoked link is no longer active |
| SharingViews.ShareStore.RemoveMember | sharing/views.py:219-225 | the owner removes exactly that pair's membership and marks that pair's invite revoked; nothing else changes |
| SharingViews.ShareStore.CreateInvite | sharing/views.py:361-391 | errors in order: not owner, blank name, unknown user, self; the owner of an active link inviting another existing user always succeeds; on success the pair's membership is gone and its invite is pending: new, reset (new inviter) or left as it was |
| SharingViews.ShareStore.ReopenInvite | sharing/views.py:378-391 | drops the pair's membership; a missing invite is created pending from the owner under a fresh id, a handled one is reset to pending with the owner as inviter, a pending one is kept; the invite id is returned |
| SharingViews.ShareStore.ActOnInvite | sharing/views.py:405-432 | only the invitee's pending invite moves: accept adds the one membership and marks accepted, decline marks declined, anything else changes nothing |
| SharingViews.ShareStore.Accept | sharing/views.py:415-424 | a pending invite becomes accepted and answered, and the pair gains its one membership, added by the inviter |
| SharingViews.ShareStore.Decline | sharing/views.py:426-430 | a pending invite becomes declined and answered; memberships are untouched |
| SharingViews.ShareStore.SaveHistory | ai/views.py:136-146 | one record of the caller is appended under a fresh id; the records of its session, and of no other, grow by exactly that record |
| SharingViews.ShareStore.PostSharedChat | sharing/views.py:242-319 | after the write gate and a non-blank message, exactly one record with the stripped question and the session id is appended, and the session replay grows by it |
| SharingViews.ShareStore.PutSharedNote | sharing/views.py:337-355 | after the write gate, the shared note gets the supplied fields and keeps the others; nothing else in the table changes |
| SharingViews.ShareStore.ReadOnlyRefusesOwner | sharing/views.py:341-342 | a read link refuses every writer, owner included, while the owner can still read |
| SharingViews.ShareStore.WriteAccessImpliesReadAccess | sharing/views.py:231-249 | whoever may write through a link may read through it |
| SharingViews.ShareStore.InactiveLinkIsNotFound | sharing/views.py:28-33 | a revoked or unknown token is not-found to every gate, members included |
| SharingViews.ShareStore.OwnerIsNotInvited | sharing/views.py:375-376 | the owner is never a member or invitee of their own link |
| SharingViews.ShareStore.InviteRequiredOnlyForOutsiders | sharing/views.py:170-176 | only a caller who is neither owner nor member is told to accept an invite |
| SharingViews.ShareStore.MemberWasInvitedByOwner | sharing/views.py:415-421 | every member holds an accepted invite sent by the owner, who is recorded as adding them |
| AiViews.ParseRole | ai/views.py:128 | a role is kept iff it is exactly "user" or "assistant" |
| AiViews.CleanItem | ai/views.py:124-132 | an item is kept iff it is an object with a valid role and string content that is not blank; the content is stripped |
| AiViews.Cleaned | ai/views.py:122-132 | filtering never lengthens the history |
| AiViews.CleanedTurnsAreClean | ai/views.py:130-132 | every kept turn has non-empty, already stripped content |
| AiViews.PyTail | ai/views.py:133 | `s[-k:]` is a suffix of s, of length min(k, \|s\|) for k at least 1 |
| AiViews.NormalizeHistory | ai/views.py:119-133 | a non-list gives []; otherwise the loop gives the last max_items clean turns in order, all clean, at most max_items |
| AiViews.AnyOccurs | ai/views.py:53 | true iff some word is a substring of the text |
| AiViews.IsProjectRequest | ai/views.py:48-53 | false for missing or empty text, else true iff a keyword occurs in the lower-cased text |
| AiViews.ProjectRequestIgnoresCase | ai/views.py:51-53 | lower-casing the text first does not change the answer |
| AiViews.SubjectRulesOfLowered | ai/views.py:86-109 | a non-empty rule text is that of a subject family one of whose words occurs in the subject |
| AiViews.SubjectRules | ai/views.py:84-109 | on the lower-cased subject (missing reads as ""), any rules returned belong to a family whose word occurs |
| AiViews.SubjectRulesIsFirstMatch | ai/views.py:84-109 | the subject rules are a first-match lookup in the priority table science, math, computer/ict, english/shona, heritage |
| AiViews.SubjectRulesPriority | ai/views.py:86-109 | the rules are "" iff no subject word occurs; science wins over everything, math over the rest |
| AiViews.SubjectRulesIgnoresCase | ai/views.py:85 | matching ignores case, and a missing subject behaves like "" |
| AiViews.ExtractText | ai/views.py:35-38 | "" iff the completion, its choices or the first content is missing or empty; otherwise the first choice's content |
| AiViews.StudyTask | ai/views.py:155-158 | a non-empty `action` overrides `task`, which defaults to "explain" |
| AiViews.StudySuffix | ai/views.py:166-173 | a suffix is added exactly for the known tasks summarize, explain, quiz and simplify |
| AiViews.StudySystemPrompt | ai/views.py:161-173 | the prompt is the base plus the suffix for `task`; an unknown `task` adds nothing |
| AiViews.NotesSuffix | ai/views.py:306-313 | a suffix is added exactly for the known actions summarize, explain, understandable and questions |
| AiViews.NotesSystemPrompt | ai/views.py:300-313 | the prompt is the base plus the action's suffix (default "summarize"); an unknown action adds nothing |
| Notes.StripNonEmpty | notes/serializers.py:17 | the stripped, non-empty pieces: each one clean, never more than the input |
| Notes.StripNonEmptyAvoids | notes/serializers.py:17 | stripping never introduces a character |
| Notes.StripNonEmptyOfClean | notes/serializers.py:23 | clean tags are left unchanged |
| Notes.ValidateTags | notes/serializers.py:22-23 | validated tags are non-blank and already stripped |
| Notes.ValidateTagsIdempotent | notes/serializers.py:22-23 | validating twice is validating once |
| Notes.DecodeTags | notes/serializers.py:13-20 | decoded tags are clean and contain no comma |
| Notes.SplitJoinedTags | notes/serializers.py:17 | splitting a ", "-joined list of clean comma-free tags on commas and cleaning gives the list back |
| Notes.EncodeTags | notes/serializers.py:32 | no tags are stored as "" and a single tag as itself |
| Notes.EncodedTagsAreStripped | notes/serializers.py:32 | the stored text of clean tags has no surrounding whitespace |
| Notes.TagsRoundTrip | notes/serializers.py:15-32 | decoding the stored form of clean, comma-free tags gives the same list |
| Notes.ValidatedTagsRoundTrip | notes/serializers.py:22-32 | validated comma-free tags survive storage |
| Notes.DecodeIsStable | notes/serializers.py:15-19 | re-storing what was decoded decodes to the same list |
| Notes.CommaTagSplits | notes/serializers.py:17 | a tag "a,b" comes back as "a" and "b" |
| Notes.ValidateClientId | notes/serializers.py:25-27 | None and blank become None; anything else is stripped and non-empty |
| Notes.ValidateClientIdIdempotent | notes/serializers.py:25-27 | validating a validated client id changes nothing |
| Notes.AssignAttributes | notes/serializers.py:40-41 | the setattr loop overwrites exactly the supplied fields and keeps the owner |
| Notes.UniqueAfterSameKey | notes/models.py:17-20 | replacing a note by one with the same owner and client id keeps (user, client_id) unique |
| Notes.NoteTable.Insert | notes/serializers.py:45-48 | a new note gets a fresh id and nothing else changes |
| Notes.NoteTable.Create | notes/serializers.py:29-48 | tags are joined with ", "; a note of the same user and client id is updated in place, otherwise one note is added; uniqueness is kept |
| Notes.NoteTable.Update | notes/serializers.py:50-57 | supplied fields are overwritten, tags only when supplied; a save that would duplicate (user, client_id) changes nothing |

## Left out

- The completion service (`_chat`, `_get_client`) is a foreign network call. Its answer is a parameter, and a failed call (an exception) is not modelled.
- The prompt sent from the shared chat (`sharing/views.py:259-309`) only feeds the completion service, so it is not modelled: the replayed history turns, the per-mode system prompt and the project prompt. The same holds for the project and general mode views beyond the helpers they call.
- History records are created by `SaveHistory`, which models `_save_history` (`ai/views.py:136-146`) and the shared chat's own record creation. The AI views that call it are not modelled, so their records appear only through `SaveHistory` calls. The logged failure path of `_save_history` (a database exception answered with None) is left out.
- The ChatHistory list and delete views, the notes CRUD views, the users views and the permission classes are framework wrappers.
- Authentication, JWT, password reset and email are I/O and library code. The caller's identity is a parameter.
- URL routing, serializer field lists and migrations are framework plumbing.
- Timestamps appear only as presence flags (`revoked`, `responded`). Ordering by `created_at` is the order of the history sequence.
- Member listing returns a set, so its order by `added_at` is left out.
- UUID share tokens are counters, so they are fresh but not random.
- Database enforcement of uniqueness under concurrent requests is out of scope. Uniqueness is a store invariant only.
- Deleting notes or users, and their cascades, are left out: no modelled operation deletes either.
- `Text.Lower` folds ASCII letters only. Python's `str.lower` also folds other Unicode letters.
- `input_data` records hold string values only. Other JSON values in a record are not modelled.
- Request values are modelled as strings or absent. A JSON `null` where a string is expected (for example `permission: null`, which the code rejects as invalid) is read as absent.
- The `note_id` list filter is modelled as present or absent. A non-numeric value, which the database would reject, is not modelled.
- The trimming and blank-rejection that the framework's `CharField` applies to each tag before `validate_tags` are framework behaviour. `ValidateTags` receives the list as given.
- The shared-note PUT takes string values only, without the serializer's type checking, as the view does.
- SharingViews.ShareStore.PostSharedChat: requires that the caller is a known user, which an authenticated request guarantees.
- AiViews.NormalizeHistory: for `max_items <= 0` the model follows Python slicing (`s[-0:]` is all of s). The length bound is stated only for `max_items >= 1`; the view always uses the default of 10.
