/** The participant routes: the create route's required fields and its
    `fullName` default, and the not-found and failure guards of the routes
    that read, update or delete one participant. The handlers call the
    participant repository; the sessions query is a parameter. */
module ParticipantsRoutes {
  import opened Wrappers
  import opened Json
  import opened Http
  import opened Cosmos
  import Participants = ParticipantRepository

  const Required: seq<string> := ["firstName", "lastName", "email", "disabilityType", "currentStatus"]
  const NotFound := "Participant not found"
  const UpdateFailed := "Failed to update participant"
  const DeleteFailed := "Failed to delete participant"
  const Deleted := "Participant deleted successfully"

  // ---------------------------------------------------------------------
  // POST /participants

  /** The f-string joining the first and last names: each value enters as
      its `str`, which is `repr` for a list or a dict. */
  function FullName(data: Document): (r: Json)
    requires "firstName" in data && "lastName" in data
    ensures data["firstName"].JStr? && data["lastName"].JStr? ==>
      r == JStr(data["firstName"].s + " " + data["lastName"].s)
    ensures r.JStr? && |r.s| == |Show(data["firstName"])| + 1 + |Show(data["lastName"])|
  {
    JStr(Show(data["firstName"]) + " " + Show(data["lastName"]))
  }

  /** The body the repository stamps: the request with `fullName` filled in
      only when it is absent. */
  function WithFullName(data: Document): Document
    requires "firstName" in data && "lastName" in data
  {
    WithDefault(data, "fullName", FullName(data))
  }

  /** The created participant keeps a given `fullName` and otherwise gets
      the first and last names joined by one space; every request field but
      the id and the time stamps is stored as sent. */
  lemma CreatedFullName(data: Document, uuid: string, now: string)
    requires "firstName" in data && "lastName" in data
    ensures var body := Stamped(WithFullName(data), uuid, now);
      ("fullName" in data ==> body["fullName"] == data["fullName"]) &&
      ("fullName" !in data && data["firstName"].JStr? && data["lastName"].JStr? ==>
         body["fullName"] == JStr(data["firstName"].s + " " + data["lastName"].s)) &&
      forall k :: k in data && k != "id" && k != "createdAt" && k != "updatedAt" ==> body[k] == data[k]
  {
    var d := WithFullName(data);
    assert d["fullName"] == Get(data, "fullName", FullName(data));
    forall k | k in data && k != "id" && k != "createdAt" && k != "updatedAt"
      ensures Stamped(d, uuid, now)[k] == data[k]
    {
      assert d[k] == data[k];
    }
  }

  /** `create_participant` (the route): 400 naming the first missing
      required field, nothing stored; otherwise the request with its
      `fullName` is created by the repository. */
  method CreateParticipantRoute(repo: Participants.ParticipantRepository, data: Document, uuid: string, now: string)
    returns (reply: Reply)
    requires repo.Valid()
    modifies repo.container
    ensures repo.Valid()
    ensures FirstMissing(data, Required).Some? ==>
      reply == MissingField(FirstMissing(data, Required).value) &&
      repo.container.items == old(repo.container.items)
    ensures FirstMissing(data, Required).None? ==>
      "firstName" in data && "lastName" in data &&
      CreatedAs(reply, Stamped(WithFullName(data), uuid, now), old(repo.container.items), repo.container.items)
  {
    var missing := CheckRequired(data, Required);
    if missing.Some? {
      return MissingField(missing.value);
    }
    assert Required[0] in data && Required[1] in data;
    var d := data;
    if "fullName" !in d {
      d := d["fullName" := FullName(data)];
    }
    var created := repo.CreateParticipant(d, uuid, now);
    reply := Created(created);
  }

  // ---------------------------------------------------------------------
  // The routes of one participant

  /** The stored participant is found: present and not empty. */
  predicate Stored(items: map<string, Document>, id: string)
  {
    id in items && |items[id]| > 0
  }

  /** `get_participant` (the route): 404 unless a non-empty participant is
      stored under the id. */
  method GetParticipantRoute(repo: Participants.ParticipantRepository, id: string) returns (reply: Reply)
    requires repo.Valid()
    ensures Stored(repo.container.items, id) ==> reply == Reply(200, JObj(repo.container.items[id]))
    ensures !Stored(repo.container.items, id) ==> reply == Reply(404, ErrorBody(NotFound))
  {
    var participant := repo.GetParticipant(id);
    if !Found(participant) {
      return Reply(404, ErrorBody(NotFound));
    }
    reply := Reply(200, JObj(participant.value));
  }

  /** `update_participant` (the route): 404 and nothing written for a
      missing participant; otherwise the repository's update, 500 when it
      gives nothing back. */
  method UpdateParticipantRoute(repo: Participants.ParticipantRepository, id: string, data: Document, now: string)
    returns (reply: Reply)
    requires repo.Valid()
    modifies repo.container
    ensures repo.Valid()
    ensures !Stored(old(repo.container.items), id) ==>
      reply == Reply(404, ErrorBody(NotFound)) && repo.container.items == old(repo.container.items)
    ensures Stored(old(repo.container.items), id) ==>
      var u := Updated(old(repo.container.items)[id], data, {}, now);
      if IdOf(u) == Some(id) then
        repo.container.items == old(repo.container.items)[id := u] && reply == Reply(200, JObj(u))
      else
        repo.container.items == old(repo.container.items) && reply == Reply(500, ErrorBody(UpdateFailed))
  {
    var existing := repo.GetParticipant(id);
    if !Found(existing) {
      return Reply(404, ErrorBody(NotFound));
    }
    var updated := repo.UpdateParticipant(id, data, now);
    if !Found(updated) {
      return Reply(500, ErrorBody(UpdateFailed));
    }
    reply := Reply(200, JObj(updated.value));
  }

  /** `delete_participant` (the route): 404 and nothing removed for a
      missing participant; otherwise it is removed and the answer is 200. */
  method DeleteParticipantRoute(repo: Participants.ParticipantRepository, id: string) returns (reply: Reply)
    requires repo.Valid()
    modifies repo.container
    ensures repo.Valid()
    ensures !Stored(old(repo.container.items), id) ==>
      reply == Reply(404, ErrorBody(NotFound)) && repo.container.items == old(repo.container.items)
    ensures Stored(old(repo.container.items), id) ==>
      reply == Reply(200, JObj(map["message" := JStr(Deleted)])) &&
      repo.container.items == old(repo.container.items) - {id}
  {
    var existing := repo.GetParticipant(id);
    if !Found(existing) {
      return Reply(404, ErrorBody(NotFound));
    }
    var success := repo.DeleteParticipant(id);
    if !success {
      reply := Reply(500, ErrorBody(DeleteFailed));
      return;
    }
    reply := Reply(200, JObj(map["message" := JStr(Deleted)]));
  }

  /** `get_participant_sessions` (the route): 404 for a missing
      participant, otherwise what the sessions query (`sessions`) returns
      for the id. */
  method GetParticipantSessionsRoute(repo: Participants.ParticipantRepository, id: string,
                                     sessions: string -> seq<Document>)
    returns (reply: Reply)
    requires repo.Valid()
    ensures !Stored(repo.container.items, id) ==> reply == Reply(404, ErrorBody(NotFound))
    ensures Stored(repo.container.items, id) ==> reply == Reply(200, JList(Objs(sessions(id))))
  {
    var existing := repo.GetParticipant(id);
    if !Found(existing) {
      return Reply(404, ErrorBody(NotFound));
    }
    reply := Reply(200, JList(Objs(sessions(id))));
  }

  /** `get_participant_job_matches` (the route): 404 for a missing
      participant, otherwise its `jobMatches`, `[]` when it has none. */
  method GetParticipantJobMatchesRoute(repo: Participants.ParticipantRepository, id: string)
    returns (reply: Reply)
    requires repo.Valid()
    ensures !Stored(repo.container.items, id) ==> reply == Reply(404, ErrorBody(NotFound))
    ensures Stored(repo.container.items, id) ==>
      reply == Reply(200, Get(repo.container.items[id], "jobMatches", JList([])))
  {
    var existing := repo.GetParticipant(id);
    if !Found(existing) {
      return Reply(404, ErrorBody(NotFound));
    }
    var matches := repo.GetParticipantJobMatches(id);
    reply := Reply(200, matches);
  }
}
