/** The participant previews the pickers on the new-session and
    job-suggestion pages choose from. */
module Previews {
  import opened Wrappers
  import opened Tables

  /** The part of a participant preview the pickers use. */
  datatype ParticipantPreview = ParticipantPreview(id: string, fullName: string)

  /** `participants.find(p => p.id === id)`: the first preview with the id. */
  function FindById(ps: seq<ParticipantPreview>, id: string): (r: Option<ParticipantPreview>)
    ensures r.None? <==> forall i :: 0 <= i < |ps| ==> ps[i].id != id
    ensures r.Some? ==> r.value.id == id
    ensures r.Some? ==> exists i :: 0 <= i < |ps| && ps[i] == r.value &&
                                    (forall j :: 0 <= j < i ==> ps[j].id != id)
  {
    var k := FindIndex(ps, (p: ParticipantPreview) => p.id == id);
    if k.Some? then Some(ps[k.value]) else None
  }
}
