/**
 * The `ChatHistory` record of `ai/models.py` and what the sharing views do
 * with a sequence of them: select a session, retag records into a session,
 * and replay records as alternating user/assistant messages.
 */
module ChatHistory {
  import opened Common
  import opened AiViews

  /** One stored AI interaction; `input` is the JSON `input_data`, restricted to string values. */
  datatype HistoryRecord = HistoryRecord(id: nat, user: UserId, mode: string, input: map<string, string>, response: string)

  /** The JSON key that groups records into a conversation. */
  const SessionKey: string := "session_id"

  /** `input_data.session_id`, if present. */
  function SessionOf(r: HistoryRecord): Option<string>
  {
    if SessionKey in r.input then Some(r.input[SessionKey]) else None
  }

  /** The text stored under a key of the input, "" when the key is absent. */
  function InputText(input: map<string, string>, key: string): string
  {
    if key in input then input[key] else ""
  }

  /** The keys probed, in order, for what the user said in a record. */
  const UserContentKeys: seq<string> := ["question", "notes", "project_name"]

  /** What the user said: the first non-empty of question, notes and project_name, "" if none. */
  function UserContent(input: map<string, string>): (r: string)
    ensures r == "" <==> forall j :: 0 <= j < 3 ==> InputText(input, UserContentKeys[j]) == ""
    ensures r != "" ==> exists j :: 0 <= j < 3 && r == InputText(input, UserContentKeys[j])
                                   && (forall j' :: 0 <= j' < j ==> InputText(input, UserContentKeys[j']) == "")
  {
    assert UserContentKeys[0] == "question" && UserContentKeys[1] == "notes" && UserContentKeys[2] == "project_name";
    var q, n, p := InputText(input, "question"), InputText(input, "notes"), InputText(input, "project_name");
    if q != "" then q else if n != "" then n else p
  }

  /** `id` of a replayed message: the record's id, or "<id>-assistant" for the answer. */
  datatype MessageId = QuestionId(n: nat) | AnswerId(n: nat)

  /** One replayed message (the `created_at` copy is left out). */
  datatype DisplayMessage = DisplayMessage(id: MessageId, role: Role, content: string, username: string)

  /** The name shown on assistant messages. */
  const AssistantName: string := "REE AI"

  function Username(users: map<UserId, string>, u: UserId): string
  {
    if u in users then users[u] else ""
  }

  function QuestionMessage(r: HistoryRecord, users: map<UserId, string>): DisplayMessage
  {
    DisplayMessage(QuestionId(r.id), UserRole, UserContent(r.input), Username(users, r.user))
  }

  function AnswerMessage(r: HistoryRecord): DisplayMessage
  {
    DisplayMessage(AnswerId(r.id), AssistantRole, r.response, AssistantName)
  }

  /** Every record replays as its question followed by its answer. */
  function Transcript(rs: seq<HistoryRecord>, users: map<UserId, string>): seq<DisplayMessage>
  {
    if rs == [] then []
    else
      var last := rs[|rs| - 1];
      Transcript(rs[..|rs| - 1], users) + [QuestionMessage(last, users), AnswerMessage(last)]
  }

  /** n records give 2n messages, alternating user then assistant, pair k coming from record k. */
  lemma {:induction false} TranscriptShape(rs: seq<HistoryRecord>, users: map<UserId, string>)
    ensures |Transcript(rs, users)| == 2 * |rs|
    ensures forall k :: 0 <= k < |rs| ==>
      && Transcript(rs, users)[2 * k] == QuestionMessage(rs[k], users)
      && Transcript(rs, users)[2 * k + 1] == AnswerMessage(rs[k])
  {
    if rs != [] {
      var init, last := rs[..|rs| - 1], rs[|rs| - 1];
      TranscriptShape(init, users);
      var t, ti := Transcript(rs, users), Transcript(init, users);
      assert t == ti + [QuestionMessage(last, users), AnswerMessage(last)];
      assert |ti| == 2 * |init|;
      forall k | 0 <= k < |rs|
        ensures t[2 * k] == QuestionMessage(rs[k], users) && t[2 * k + 1] == AnswerMessage(rs[k])
      {
        if k < |init| {
          assert rs[k] == init[k];
          assert t[2 * k] == ti[2 * k] && t[2 * k + 1] == ti[2 * k + 1];
        } else {
          assert k == |init| && rs[k] == last;
          assert t[2 * k] == QuestionMessage(last, users) && t[2 * k + 1] == AnswerMessage(last);
        }
      }
    }
  }

  /** A sequence made of (user, assistant) pairs alternates roles, starting with the user. */
  lemma PairsAlternate(t: seq<DisplayMessage>, n: nat)
    requires |t| == 2 * n
    requires forall k :: 0 <= k < n ==> t[2 * k].role == UserRole && t[2 * k + 1].role == AssistantRole
    ensures forall i :: 0 <= i < |t| ==> t[i].role == (if i % 2 == 0 then UserRole else AssistantRole)
  {
    forall i | 0 <= i < |t| ensures t[i].role == (if i % 2 == 0 then UserRole else AssistantRole) {
      var k := i / 2;
      assert i == 2 * k + i % 2 && 0 <= k < n;
    }
  }

  /** A replayed transcript alternates roles, starting with the user. */
  lemma TranscriptAlternates(rs: seq<HistoryRecord>, users: map<UserId, string>)
    ensures forall i :: 0 <= i < |Transcript(rs, users)| ==>
      Transcript(rs, users)[i].role == (if i % 2 == 0 then UserRole else AssistantRole)
  {
    TranscriptShape(rs, users);
    var t := Transcript(rs, users);
    forall k | 0 <= k < |rs| ensures t[2 * k].role == UserRole && t[2 * k + 1].role == AssistantRole {
      assert t[2 * k] == QuestionMessage(rs[k], users) && t[2 * k + 1] == AnswerMessage(rs[k]);
    }
    PairsAlternate(t, |rs|);
  }

  /** The records tagged with the session id, in creation order. */
  function SessionRecords(h: seq<HistoryRecord>, sid: string): seq<HistoryRecord>
  {
    if h == [] then []
    else
      var last := h[|h| - 1];
      SessionRecords(h[..|h| - 1], sid) + (if SessionOf(last) == Some(sid) then [last] else [])
  }

  /** The selection holds exactly the records of the session, and keeps their order. */
  lemma {:induction false} SessionRecordsSelects(h: seq<HistoryRecord>, sid: string)
    ensures forall k :: 0 <= k < |SessionRecords(h, sid)| ==> SessionOf(SessionRecords(h, sid)[k]) == Some(sid)
    ensures forall k :: 0 <= k < |h| && SessionOf(h[k]) == Some(sid) ==> h[k] in SessionRecords(h, sid)
    ensures SessionRecords(h, sid) == [] <==> forall k :: 0 <= k < |h| ==> SessionOf(h[k]) != Some(sid)
  {
    if h != [] {
      var init, last := h[..|h| - 1], h[|h| - 1];
      SessionRecordsSelects(init, sid);
      var sel, si := SessionRecords(h, sid), SessionRecords(init, sid);
      assert sel == si + (if SessionOf(last) == Some(sid) then [last] else []);
      forall k | 0 <= k < |h| && SessionOf(h[k]) == Some(sid) ensures h[k] in sel {
        if k < |init| {
          assert init[k] == h[k];
        }
      }
    }
  }

  /** One more record extends the session replay by its two messages, or leaves it alone. */
  lemma ReplayStep(h: seq<HistoryRecord>, i: nat, sid: string, users: map<UserId, string>)
    requires i < |h|
    ensures Transcript(SessionRecords(h[..i + 1], sid), users) ==
      Transcript(SessionRecords(h[..i], sid), users)
      + (if SessionOf(h[i]) == Some(sid) then [QuestionMessage(h[i], users), AnswerMessage(h[i])] else [])
  {
    var before := SessionRecords(h[..i], sid);
    assert h[..i + 1][..i] == h[..i];
    if SessionOf(h[i]) == Some(sid) {
      assert SessionRecords(h[..i + 1], sid) == before + [h[i]];
      assert (before + [h[i]])[..|before|] == before;
    } else {
      assert SessionRecords(h[..i + 1], sid) == before;
    }
  }

  /** Some record of `user` carries session `sid`. */
  predicate HasSession(h: seq<HistoryRecord>, user: UserId, sid: string)
  {
    exists k :: 0 <= k < |h| && h[k].user == user && SessionOf(h[k]) == Some(sid)
  }

  /** Whether the share view retags record `r`: it belongs to `user` and its id was listed. */
  predicate Selected(r: HistoryRecord, user: UserId, ids: seq<nat>)
  {
    r.user == user && r.id in ids
  }

  /** One record tagged with the session id; every other key of its input is kept as it was. */
  function Tagged(r: HistoryRecord, sid: string): (t: HistoryRecord)
    ensures SessionOf(t) == Some(sid)
    ensures t.id == r.id && t.user == r.user && t.response == r.response && t.mode == r.mode
    ensures SessionKey in t.input && t.input - {SessionKey} == r.input - {SessionKey}
  {
    r.(input := r.input[SessionKey := sid])
  }

  /** Tagging keeps every other input key and its value, so the replayed question is the same. */
  lemma TaggedKeepsInput(r: HistoryRecord, sid: string)
    ensures forall k :: k != SessionKey ==> (k in Tagged(r, sid).input <==> k in r.input)
    ensures forall k :: k != SessionKey && k in r.input ==> Tagged(r, sid).input[k] == r.input[k]
    ensures UserContent(Tagged(r, sid).input) == UserContent(r.input)
  {
    var t := Tagged(r, sid);
    forall k | k != SessionKey ensures (k in t.input <==> k in r.input) {
      assert (k in t.input - {SessionKey}) == (k in t.input);
      assert (k in r.input - {SessionKey}) == (k in r.input);
    }
    forall k | k != SessionKey && k in r.input ensures t.input[k] == r.input[k] {
      assert (t.input - {SessionKey})[k] == t.input[k];
      assert (r.input - {SessionKey})[k] == r.input[k];
    }
    assert InputText(t.input, "question") == InputText(r.input, "question");
    assert InputText(t.input, "notes") == InputText(r.input, "notes");
    assert InputText(t.input, "project_name") == InputText(r.input, "project_name");
  }

  /** The history after the listed records of `user` are tagged with `sid`; no other record changes. */
  function Retag(h: seq<HistoryRecord>, user: UserId, ids: seq<nat>, sid: string): (r: seq<HistoryRecord>)
    ensures |r| == |h|
    ensures forall k :: 0 <= k < |h| ==> r[k] == if Selected(h[k], user, ids) then Tagged(h[k], sid) else h[k]
  {
    seq(|h|, k requires 0 <= k < |h| => if Selected(h[k], user, ids) then Tagged(h[k], sid) else h[k])
  }

  /** Records of other users are never retagged. */
  lemma RetagSparesOthers(h: seq<HistoryRecord>, user: UserId, ids: seq<nat>, sid: string)
    ensures forall k :: 0 <= k < |h| && h[k].user != user ==> Retag(h, user, ids, sid)[k] == h[k]
  {
  }

  /** After retagging, `user` owns a record of the session iff one existed or one of their records was listed. */
  lemma RetagFindsSession(h: seq<HistoryRecord>, user: UserId, ids: seq<nat>, sid: string)
    ensures HasSession(Retag(h, user, ids, sid), user, sid) <==>
      HasSession(h, user, sid) || exists k :: 0 <= k < |h| && Selected(h[k], user, ids)
  {
    var r := Retag(h, user, ids, sid);
    if HasSession(r, user, sid) {
      var k :| 0 <= k < |r| && r[k].user == user && SessionOf(r[k]) == Some(sid);
      if !Selected(h[k], user, ids) {
        assert h[k] == r[k];
      }
    }
    if exists k :: 0 <= k < |h| && Selected(h[k], user, ids) {
      var k :| 0 <= k < |h| && Selected(h[k], user, ids);
      assert r[k].user == user && SessionOf(r[k]) == Some(sid);
    }
    if HasSession(h, user, sid) {
      var k :| 0 <= k < |h| && h[k].user == user && SessionOf(h[k]) == Some(sid);
      assert SessionOf(r[k]) == Some(sid);
    }
  }
}
