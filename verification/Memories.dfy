/** Durable summaries (core/memory/store.go), the effect of each write on one record, and the locked
    in-memory store (core/memory/memory_store.go). Zero stands for an empty identifier and for no time. */
module Memories {
  import opened Prelude
  import opened Text

  type Id = nat

  datatype Status = Active | Forgotten
  datatype Origin = FromModel | FromOperator
  datatype Fact = Fact(text: string, confidence: real, sourceIds: seq<Id>, expiresAt: int)

  /** What a curator hands in. */
  datatype Draft = Draft(
    org: Id, channel: Id, scopeKey: Id, rootThread: Id, wholeChannel: bool, restricted: bool, text: string,
    facts: seq<Fact>,
    confidence: real, sourceIds: seq<Id>, sourceHash: Id, model: Id, effort: Id, pinned: bool, status: Status,
    naturalExpiresAt: int, expiresAt: int)

  datatype Record = Record(id: Id, body: Draft, origin: Origin, revision: int, createdAt: int, updatedAt: int)

  datatype Error = Invalid | NotFound | Conflict

  function ValidText(text: string): Option<string> {
    if 1 <= |Trim(text)| <= 12000 then Some(Trim(text)) else None
  }

  /** An active record that an operator pinned or wrote. */
  predicate Protected(r: Record) {
    r.body.status.Active? && (r.body.pinned || r.origin.FromOperator?)
  }

  /** A generated write leaves such a record alone. */
  predicate Skips(existing: Record, draft: Draft) {
    existing.body.sourceHash == draft.sourceHash || Protected(existing)
  }

  function Learned(draft: Draft, id: Id, now: int): Record {
    Record(id, draft, FromModel, 1, now, now)
  }

  function Relearned(existing: Record, draft: Draft, now: int): Record {
    Record(existing.id, draft, FromModel, existing.revision + 1, existing.createdAt, now)
  }

  function Corrected(r: Record, text: string, now: int): Record {
    r.(body := r.body.(text := text, status := Active, pinned := true, expiresAt := 0), origin := FromOperator,
       revision := r.revision + 1, updatedAt := now)
  }

  function Repinned(r: Record, pinned: bool, now: int): Record {
    r.(body := r.body.(pinned := pinned, expiresAt := if pinned then 0 else r.body.naturalExpiresAt),
       revision := r.revision + 1, updatedAt := now)
  }

  function Erased(r: Record, now: int): Record {
    r.(body := r.body.(text := "", facts := [], sourceIds := [], model := 0, effort := 0, status := Forgotten,
                       pinned := false, expiresAt := 0, naturalExpiresAt := 0),
       origin := FromOperator, revision := r.revision + 1, updatedAt := now)
  }

  // ---------------------------------------------------------------- the locked store

  /** How an organization and a scope key become one index key. Concatenating them with a slash may give two
      pairs the same one, so this is any function. */
  type Joining = (Id, Id) -> Id

  function IndexKey(join: Joining, draft: Draft): Id {
    join(draft.org, draft.scopeKey)
  }

  class MemoryStore {
    const join: Joining
    var byId: map<Id, Record>
    var byScope: map<Id, Id>
    var clock: int

    /** The scope index names exactly the stored records, one per joined organization and scope key. */
    ghost predicate Valid()
      reads this
    {
      && (forall key :: key in byScope ==> byScope[key] in byId && IndexKey(join, byId[byScope[key]].body) == key)
      && (forall id :: id in byId ==>
            id != 0 && byId[id].id == id && byId[id].revision >= 1
            && IndexKey(join, byId[id].body) in byScope && byScope[IndexKey(join, byId[id].body)] == id)
    }

    constructor (join: Joining, now: int)
      ensures Valid() && byId == map[] && this.join == join
    {
      this.join := join;
      byId, byScope, clock := map[], map[], now;
    }

    /** Finds the record filed under the joined key: the one that was asked for, exactly when no other pair that
        joins to the same key has one. */
    method FindScope(org: Id, scopeKey: Id) returns (r: Result<Record, Error>)
      requires Valid()
      ensures r.Ok? ==> r.value in byId.Values && IndexKey(join, r.value.body) == join(org, scopeKey)
      ensures r.Ok? ==>
        (r.value.body.org == org && r.value.body.scopeKey == scopeKey <==>
         forall id :: id in byId && IndexKey(join, byId[id].body) == join(org, scopeKey) ==>
           byId[id].body.org == org && byId[id].body.scopeKey == scopeKey)
      ensures r.Err? ==>
        r.error == NotFound && forall id :: id in byId ==> IndexKey(join, byId[id].body) != join(org, scopeKey)
    {
      var key := join(org, scopeKey);
      if key in byScope {
        return Ok(byId[byScope[key]]);
      }
      return Err(NotFound);
    }

    /** Learns a new scope, relearns an unprotected record from changed sources, and otherwise changes
        nothing and answers with what is stored. */
    method PutGenerated(draft: Draft, newId: Id) returns (r: Result<(Record, bool), Error>)
      requires Valid() && newId != 0 && newId !in byId
      modifies this`byId, this`byScope
      ensures Valid()
      ensures r.Ok? <==> ValidText(draft.text).Some?
      ensures r.Err? ==> r.error == Invalid && byId == old(byId)
      ensures r.Ok? ==>
        var (saved, changed) := r.value;
        var key := join(draft.org, draft.scopeKey);
        var clean := draft.(text := ValidText(draft.text).value);
        && saved.id in byId && byId == old(byId)[saved.id := saved]
        && (if key !in old(byScope) then changed && saved == Learned(clean, newId, clock)
            else
              var existing := old(byId)[old(byScope)[key]];
              changed == !Skips(existing, draft)
                && saved == if changed then Relearned(existing, clean, clock) else existing)
      ensures r.Ok? ==>
        var (saved, changed) := r.value;
        var clean := draft.(text := Trim(draft.text));
        && 1 <= |clean.text| <= 12000
        && (saved.id !in old(byId) ==> changed && saved == Record(newId, clean, FromModel, 1, clock, clock))
        && (saved.id in old(byId) ==>
              var existing := old(byId)[saved.id].body;
              && (changed <==>
                    existing.sourceHash != draft.sourceHash
                    && !(existing.status == Active && (existing.pinned || old(byId)[saved.id].origin == FromOperator)))
              && (if !changed then saved == old(byId)[saved.id]
                  else saved == Record(saved.id, clean, FromModel, old(byId)[saved.id].revision + 1,
                                       old(byId)[saved.id].createdAt, clock)))
    {
      var text := ValidText(draft.text);
      if text.None? {
        return Err(Invalid);
      }
      var key := join(draft.org, draft.scopeKey);
      var clean := draft.(text := text.value);
      var saved := Learned(clean, newId, clock);
      if key in byScope {
        var existing := byId[byScope[key]];
        if Skips(existing, draft) {
          assert byId == byId[existing.id := existing];
          return Ok((existing, false));
        }
        saved := Relearned(existing, clean, clock);
      }
      Save(saved);
      return Ok((saved, true));
    }

    method Save(saved: Record)
      requires Valid() && saved.id != 0 && saved.revision >= 1
      requires var key := IndexKey(join, saved.body);
        if key in byScope then byScope[key] == saved.id else saved.id !in byId
      modifies this`byId, this`byScope
      ensures Valid() && byId == old(byId)[saved.id := saved]
    {
      byId, byScope := byId[saved.id := saved], byScope[IndexKey(join, saved.body) := saved.id];
    }

    /** Operator edits: refused for a missing record, another organization or no actor. */
    method Edit(org: Id, id: Id, actor: string, edited: Record) returns (r: Result<Record, Error>)
      requires Valid()
      requires id in byId ==>
        edited.id == id && edited.revision >= 1
        && edited.body.org == byId[id].body.org && edited.body.scopeKey == byId[id].body.scopeKey
      modifies this`byId
      ensures Valid()
      ensures r == if id in old(byId) && old(byId)[id].body.org == org && actor != "" then Ok(edited) else Err(NotFound)
      ensures byId == if r.Ok? then old(byId)[id := edited] else old(byId)
    {
      if id !in byId || byId[id].body.org != org || actor == "" {
        return Err(NotFound);
      }
      byId := byId[id := edited];
      return Ok(edited);
    }

    method Correct(org: Id, id: Id, text: string, actor: string) returns (r: Result<Record, Error>)
      requires Valid()
      modifies this`byId
      ensures Valid()
      ensures r.Ok? <==> ValidText(text).Some? && id in old(byId) && old(byId)[id].body.org == org && actor != ""
      ensures r.Ok? ==> Protected(r.value) && r.value == Corrected(old(byId)[id], ValidText(text).value, clock)
      ensures r.Ok? ==>
        && r.value.origin == FromOperator && r.value.revision == old(byId)[id].revision + 1
        && r.value.updatedAt == clock
        && r.value.body == old(byId)[id].body.(text := Trim(text), status := Active, pinned := true, expiresAt := 0)
      ensures byId == if r.Ok? then old(byId)[id := r.value] else old(byId)
    {
      var valid := ValidText(text);
      if valid.None? {
        return Err(Invalid);
      }
      if id !in byId {
        return Err(NotFound);
      }
      r := Edit(org, id, actor, Corrected(byId[id], valid.value, clock));
    }

    method SetPinned(org: Id, id: Id, pinned: bool, actor: string) returns (r: Result<Record, Error>)
      requires Valid()
      modifies this`byId
      ensures Valid()
      ensures r.Ok? <==> id in old(byId) && old(byId)[id].body.org == org && actor != ""
      ensures r.Ok? ==> r.value == Repinned(old(byId)[id], pinned, clock)
      ensures r.Ok? ==>
        && r.value.body.pinned == pinned && r.value.body.text == old(byId)[id].body.text
        && r.value.body.expiresAt == (if pinned then 0 else old(byId)[id].body.naturalExpiresAt)
        && r.value.origin == old(byId)[id].origin && r.value.revision == old(byId)[id].revision + 1
      ensures byId == if r.Ok? then old(byId)[id := r.value] else old(byId)
    {
      if id !in byId {
        return Err(NotFound);
      }
      r := Edit(org, id, actor, Repinned(byId[id], pinned, clock));
    }

    method Forget(org: Id, id: Id, actor: string) returns (r: Result<Record, Error>)
      requires Valid()
      modifies this`byId
      ensures Valid()
      ensures r.Ok? <==> id in old(byId) && old(byId)[id].body.org == org && actor != ""
      ensures r.Ok? ==> r.value == Erased(old(byId)[id], clock)
      ensures r.Ok? ==>
        var was, left := old(byId)[id].body, r.value.body;
        && left.text == "" && left.facts == [] && left.sourceIds == [] && left.model == 0 && left.effort == 0
        && left.status == Forgotten && !left.pinned && left.expiresAt == 0 && left.naturalExpiresAt == 0
        && left.org == was.org && left.scopeKey == was.scopeKey && left.sourceHash == was.sourceHash
        && r.value.revision == old(byId)[id].revision + 1
      ensures byId == if r.Ok? then old(byId)[id := r.value] else old(byId)
    {
      if id !in byId {
        return Err(NotFound);
      }
      r := Edit(org, id, actor, Erased(byId[id], clock));
    }
  }
}
