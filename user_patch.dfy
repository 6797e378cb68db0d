/**
 * The user record served by the axum demo (examples/axum_serde.rs): GET
 * returns a copy of the shared record, PATCH overwrites the fields its
 * body carries and answers with the record as it now is.
 */
module UserPatch {
  import opened Common

  /** The record as a value: what GET and PATCH return (a clone). */
  datatype User = User(name: string, age: byte, skills: seq<string>)

  /** A PATCH body: each field is optional, and there is no `name` field. */
  datatype UserUpdate = UserUpdate(age: Option<byte>, skills: Option<seq<string>>)

  /** The record after `upd` has been applied to `u`. */
  function Patched(u: User, upd: UserUpdate): (r: User)
    ensures r.name == u.name
    ensures upd.age.Some? ==> r.age == upd.age.value
    ensures upd.age.None? ==> r.age == u.age
    ensures upd.skills.Some? ==> r.skills == upd.skills.value
    ensures upd.skills.None? ==> r.skills == u.skills
  {
    var age := if upd.age.Some? then upd.age.value else u.age;
    var skills := if upd.skills.Some? then upd.skills.value else u.skills;
    User(u.name, age, skills)
  }

  /** PATCH is idempotent: a repeated request leaves the record as the first one did. */
  lemma PatchedIdempotent(u: User, upd: UserUpdate)
    ensures Patched(Patched(u, upd), upd) == Patched(u, upd)
  {
  }

  /** A PATCH with an empty body is a no-op. */
  lemma EmptyPatchIsIdentity(u: User)
    ensures Patched(u, UserUpdate(None, None)) == u
  {
  }

  /**
   * Only the last PATCH to carry a field decides it: applying `first` and
   * then `second` is one PATCH whose fields are those of `second`, falling
   * back to those of `first`.
   */
  lemma PatchedSequence(u: User, first: UserUpdate, second: UserUpdate)
    ensures Patched(Patched(u, first), second)
         == Patched(u, UserUpdate(if second.age.Some? then second.age else first.age,
                                  if second.skills.Some? then second.skills else first.skills))
  {
  }

  /** The record behind the server's `Arc<Mutex<User>>`, updated in place. */
  class SharedUser {
    var name: string
    var age: byte
    var skills: seq<string>

    /** The record's current value. */
    function Value(): User
      reads this
    {
      User(name, age, skills)
    }

    constructor (init: User)
      ensures Value() == init
    {
      name := init.name;
      age := init.age;
      skills := init.skills;
    }

    /** GET: a copy of the current record; nothing changes. */
    method Get() returns (u: User)
      ensures u == Value()
      ensures u.name == name && u.age == age && u.skills == skills
    {
      u := User(name, age, skills);
    }

    /** PATCH: overwrite the fields `upd` carries, then return a copy of the record. */
    method Update(upd: UserUpdate) returns (u: User)
      modifies this
      ensures Value() == Patched(old(Value()), upd)
      ensures name == old(name)
      ensures u == Value()
    {
      if upd.age.Some? {
        age := upd.age.value;
      }
      if upd.skills.Some? {
        skills := upd.skills.value;
      }
      u := User(name, age, skills);
    }
  }

  /** Two identical PATCH requests leave the shared record as one does, and both answer the same. */
  method RepeatedUpdate(shared: SharedUser, upd: UserUpdate) returns (first: User, second: User)
    modifies shared
    ensures first == second == shared.Value() == Patched(old(shared.Value()), upd)
  {
    first := shared.Update(upd);
    second := shared.Update(upd);
    PatchedIdempotent(old(shared.Value()), upd);
  }
}
