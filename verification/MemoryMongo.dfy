/** The shared memory store (core/memory/mongo.go): curators who read, decide and overwrite by revision,
    against operators who edit at any time. Each action is one call on the collection. */
module MemoryMongo {
  import opened Prelude
  import opened Memories

  /** `seen` records every document some process has read and may still act on. */
  datatype Store = Store(docs: map<Id, Record>, clock: int, seen: set<Record>)

  datatype Action =
    | Tick(time: int)
    | Read(id: Id)
    | Insert(id: Id, draft: Draft, at: int)
    | Overwrite(id: Id, base: Record, draft: Draft, at: int)
    | Correct(id: Id, org: Id, text: string, at: int)
    | Pin(id: Id, org: Id, at: int)
    | Unpin(id: Id, org: Id, base: Record, at: int)
    | Forget(id: Id, org: Id, at: int)

  const EMPTY := Store(map[], 0, {})

  predicate SameScope(a: Draft, b: Draft) {
    a.org == b.org && a.scopeKey == b.scopeKey
  }

  /** The unique index on organization and scope key. */
  predicate ScopeTaken(docs: map<Id, Record>, draft: Draft) {
    exists id :: id in docs && SameScope(docs[id].body, draft)
  }

  /** A field that is empty in the draft is left out of the update and keeps its stored value. */
  function Merged(stored: Draft, draft: Draft): Draft {
    draft.(
      rootThread := if draft.rootThread == 0 then stored.rootThread else draft.rootThread,
      text := if draft.text == "" then stored.text else draft.text,
      facts := if draft.facts == [] then stored.facts else draft.facts,
      sourceIds := if draft.sourceIds == [] then stored.sourceIds else draft.sourceIds,
      model := if draft.model == 0 then stored.model else draft.model,
      effort := if draft.effort == 0 then stored.effort else draft.effort,
      naturalExpiresAt := if draft.naturalExpiresAt == 0 then stored.naturalExpiresAt else draft.naturalExpiresAt,
      expiresAt := if draft.expiresAt == 0 then stored.expiresAt else draft.expiresAt)
  }

  /** The identity fields come from the copy that was read. */
  function Overwritten(stored: Record, base: Record, draft: Draft, at: int): Record {
    Record(base.id, Merged(stored.body, draft), FromModel, base.revision + 1, base.createdAt, at)
  }

  /** The expiry comes from an earlier read, and an empty one is not written. */
  function UnpinnedBy(stored: Record, base: Record, at: int): Record {
    stored.(body := stored.body.(pinned := false,
                                 expiresAt := if base.body.naturalExpiresAt == 0 then stored.body.expiresAt
                                              else base.body.naturalExpiresAt),
            revision := stored.revision + 1, updatedAt := at)
  }

  predicate Writes(a: Action) {
    !a.Tick? && !a.Read?
  }

  predicate ByOperator(a: Action) {
    a.Correct? || a.Pin? || a.Unpin? || a.Forget?
  }

  /** The record after the write. */
  function Written(s: Store, a: Action): Record
    requires Writes(a) && (a.Insert? || a.id in s.docs)
  {
    match a
    case Insert(id, draft, at) => Learned(draft, id, at)
    case Overwrite(id, base, draft, at) => Overwritten(s.docs[id], base, draft, at)
    case Correct(id, _, text, at) => Corrected(s.docs[id], text, at)
    case Pin(id, _, at) => Repinned(s.docs[id], true, at)
    case Unpin(id, _, base, at) => UnpinnedBy(s.docs[id], base, at)
    case Forget(id, _, at) => Erased(s.docs[id], at)
  }

  /** An overwrite was decided on a copy it may replace, and lands when the revision is still the same. */
  predicate Enabled(s: Store, a: Action) {
    match a
    case Tick(time) => s.clock <= time
    case Read(id) => id in s.docs
    case Insert(id, draft, at) => id !in s.docs && !ScopeTaken(s.docs, draft) && at <= s.clock
    case Overwrite(id, base, draft, at) =>
      && base in s.seen && SameScope(base.body, draft) && !Skips(base, draft) && at <= s.clock
      && id in s.docs && SameScope(s.docs[id].body, draft) && s.docs[id].revision == base.revision
    case Unpin(id, org, base, at) =>
      base in s.seen && base.id == id && id in s.docs && s.docs[id].body.org == org && at <= s.clock
    case _ => a.id in s.docs && s.docs[a.id].body.org == a.org && a.at <= s.clock
  }

  function Apply(s: Store, a: Action): Store
    requires Enabled(s, a)
  {
    match a
    case Tick(time) => s.(clock := time)
    case Read(id) => s.(seen := s.seen + {s.docs[id]})
    case _ => s.(docs := s.docs[a.id := Written(s, a)])
  }

  ghost predicate Executable(s: Store, run: seq<Action>)
    decreases |run|
  {
    run == [] || (Enabled(s, run[0]) && Executable(Apply(s, run[0]), run[1..]))
  }

  ghost function After(s: Store, run: seq<Action>): Store
    requires Executable(s, run)
    decreases |run|
  {
    if run == [] then s else After(Apply(s, run[0]), run[1..])
  }

  // ---------------------------------------------------------------- the invariant

  predicate DocOk(s: Store, id: Id) {
    id in s.docs ==> s.docs[id].id == id && s.docs[id].revision >= 1
  }

  /** A copy once read is the stored record, or the stored one has a higher revision. */
  predicate SeenOk(s: Store, base: Record) {
    base in s.seen ==>
      base.id in s.docs && SameScope(base.body, s.docs[base.id].body) && base.revision <= s.docs[base.id].revision
      && (base.revision == s.docs[base.id].revision ==> base == s.docs[base.id])
  }

  ghost predicate OnePerScope(docs: map<Id, Record>) {
    forall i, j :: i in docs && j in docs && SameScope(docs[i].body, docs[j].body) ==> i == j
  }

  ghost predicate Inv(s: Store) {
    && (forall id {:trigger DocOk(s, id)} :: DocOk(s, id))
    && (forall base {:trigger SeenOk(s, base)} :: SeenOk(s, base))
    && OnePerScope(s.docs)
  }

  /** An overwrite that lands replaces the very record it was decided on: a record that is not protected
      at that moment, and whose sources differ. */
  lemma OverwriteIsFair(s: Store, a: Action)
    requires Inv(s) && Enabled(s, a) && a.Overwrite?
    ensures s.docs[a.id] == a.base && !Protected(s.docs[a.id]) && s.docs[a.id].body.sourceHash != a.draft.sourceHash
  {
    assert SeenOk(s, a.base) && DocOk(s, a.id);
  }

  /** Every successful write raises the revision by exactly one and keeps the record's identity. */
  lemma WriteRaisesRevision(s: Store, a: Action)
    requires Inv(s) && Enabled(s, a) && Writes(a)
    ensures var w := Written(s, a);
      w.id == a.id && if a.Insert? then w.revision == 1
      else w.revision == s.docs[a.id].revision + 1 && SameScope(w.body, s.docs[a.id].body)
           && w.createdAt == s.docs[a.id].createdAt
  {
    assert DocOk(s, a.id);
    if a.Overwrite? {
      OverwriteIsFair(s, a);
    }
  }

  lemma StepKeepsInv(s: Store, a: Action)
    requires Inv(s) && Enabled(s, a)
    ensures Inv(Apply(s, a))
  {
    if Writes(a) {
      WriteRaisesRevision(s, a);
    }
    forall id ensures DocOk(Apply(s, a), id) {
      assert DocOk(s, id);
    }
    forall base ensures SeenOk(Apply(s, a), base) {
      assert SeenOk(s, base) && (!a.Tick? ==> DocOk(s, a.id));
    }
  }

  lemma {:induction false} RunKeepsInv(s: Store, run: seq<Action>)
    requires Inv(s) && Executable(s, run)
    ensures Inv(After(s, run))
    decreases |run|
  {
    if run != [] {
      StepKeepsInv(s, run[0]);
      RunKeepsInv(Apply(s, run[0]), run[1..]);
    }
  }

  // ---------------------------------------------------------------- safety over all runs

  ghost function WritesTo(run: seq<Action>, id: Id): nat {
    if run == [] then 0 else (if Writes(run[0]) && run[0].id == id then 1 else 0) + WritesTo(run[1..], id)
  }

  /** No write is lost and none counts twice: the revision counts the writes of the run. */
  lemma {:induction false} RevisionCountsWrites(s: Store, run: seq<Action>, id: Id)
    requires Inv(s) && Executable(s, run) && id in s.docs
    ensures id in After(s, run).docs && After(s, run).docs[id].revision == s.docs[id].revision + WritesTo(run, id)
    decreases |run|
  {
    if run != [] {
      StepKeepsInv(s, run[0]);
      if Writes(run[0]) {
        WriteRaisesRevision(s, run[0]);
      }
      RevisionCountsWrites(Apply(s, run[0]), run[1..], id);
    }
  }

  /** However many curators interleave, a pinned or operator-owned record stays as it is until an
      operator touches it. */
  lemma {:induction false} ProtectedUntilOperator(s: Store, run: seq<Action>, id: Id)
    requires Inv(s) && Executable(s, run) && id in s.docs && Protected(s.docs[id])
    requires forall a :: a in run && ByOperator(a) ==> a.id != id
    ensures id in After(s, run).docs && After(s, run).docs[id] == s.docs[id]
    decreases |run|
  {
    if run != [] {
      assert run[0] in run && forall a :: a in run[1..] ==> a in run;
      StepKeepsInv(s, run[0]);
      if run[0].Overwrite? {
        OverwriteIsFair(s, run[0]);
      }
      ProtectedUntilOperator(Apply(s, run[0]), run[1..], id);
    }
  }

  ghost predicate Tombstone(s: Store, id: Id, hash: Id) {
    id in s.docs && s.docs[id].body.status.Forgotten? && s.docs[id].body.sourceHash == hash
    && s.docs[id].body.text == "" && s.docs[id].body.facts == [] && s.docs[id].body.sourceIds == []
  }

  lemma StepKeepsTombstone(s: Store, a: Action, id: Id, hash: Id)
    requires Inv(s) && Enabled(s, a) && Tombstone(s, id, hash) && !(a.Correct? && a.id == id)
    requires !(a.Overwrite? && a.id == id && a.draft.sourceHash != hash)
    ensures Tombstone(Apply(s, a), id, hash) && !(a.Overwrite? && a.id == id)
  {
    if a.Overwrite? {
      OverwriteIsFair(s, a);
    }
  }

  ghost predicate OnlyOfScope(docs: map<Id, Record>, id: Id)
    requires id in docs
  {
    forall other :: other in docs && SameScope(docs[other].body, docs[id].body) ==> other == id
  }

  /** A forgotten record whose sources have not changed is never relearned: until an operator writes it
      anew, no generated write lands on it and nothing else is stored for its scope. */
  lemma {:induction false} NeverRelearned(s: Store, run: seq<Action>, id: Id, hash: Id)
    requires Inv(s) && Executable(s, run) && Tombstone(s, id, hash)
    requires forall a :: a in run && a.Correct? ==> a.id != id
    requires forall a :: a in run && a.Overwrite? && a.id == id ==> a.draft.sourceHash == hash
    ensures Tombstone(After(s, run), id, hash) && forall a :: a in run && a.Overwrite? ==> a.id != id
    ensures OnlyOfScope(After(s, run).docs, id)
    decreases |run|
  {
    if run != [] {
      assert run[0] in run && forall a :: a in run[1..] ==> a in run;
      StepKeepsInv(s, run[0]);
      StepKeepsTombstone(s, run[0], id, hash);
      NeverRelearned(Apply(s, run[0]), run[1..], id, hash);
      assert run == [run[0]] + run[1..];
    }
  }

  // ---------------------------------------------------------------- agreement with the locked store

  /** A generated write does what the locked store does exactly when every field that is empty in the
      draft is empty in the stored record too: otherwise the old value survives. */
  lemma OverwriteRefinesLocked(s: Store, a: Action)
    requires Inv(s) && Enabled(s, a) && a.Overwrite?
    ensures var stored := s.docs[a.id].body;
      Written(s, a) == Relearned(s.docs[a.id], a.draft, a.at) <==>
        (a.draft.rootThread == 0 ==> stored.rootThread == 0) && (a.draft.text == "" ==> stored.text == "")
        && (a.draft.facts == [] ==> stored.facts == []) && (a.draft.sourceIds == [] ==> stored.sourceIds == [])
        && (a.draft.model == 0 ==> stored.model == 0) && (a.draft.effort == 0 ==> stored.effort == 0)
        && (a.draft.naturalExpiresAt == 0 ==> stored.naturalExpiresAt == 0)
        && (a.draft.expiresAt == 0 ==> stored.expiresAt == 0)
  {
    OverwriteIsFair(s, a);
    if Written(s, a) == Relearned(s.docs[a.id], a.draft, a.at) {
      assert Merged(s.docs[a.id].body, a.draft) == a.draft;
    }
  }

  /** Relearning a forgotten record leaves no trace of what was forgotten, whatever fields are empty. */
  lemma RelearningForgottenIsClean(s: Store, a: Action, now: int)
    requires Inv(s) && Enabled(s, a) && a.Overwrite? && s.docs[a.id].body == Erased(s.docs[a.id], now).body
    ensures Merged(s.docs[a.id].body, a.draft) == a.draft.(rootThread := Merged(s.docs[a.id].body, a.draft).rootThread)
  {
    assert s.docs[a.id].body.text == "" && s.docs[a.id].body.facts == [] && s.docs[a.id].body.sourceIds == [];
  }

  /** Unpinning agrees with the locked store when the record was not forgotten and its natural expiry
      not rewritten since it was read; an empty natural expiry is not written at all. */
  lemma UnpinRefinesLocked(s: Store, a: Action)
    requires Inv(s) && Enabled(s, a) && a.Unpin?
    ensures var stored := s.docs[a.id];
      Written(s, a) == Repinned(stored, false, a.at) <==>
        stored.body.naturalExpiresAt ==
          (if a.base.body.naturalExpiresAt == 0 then stored.body.expiresAt else a.base.body.naturalExpiresAt)
  {
    if Written(s, a) == Repinned(s.docs[a.id], false, a.at) {
      assert Written(s, a).body.expiresAt == s.docs[a.id].body.naturalExpiresAt;
    }
  }

  /** An unpinning that read the record before it was forgotten gives the forgotten record an expiry
      again, exactly when the record it read had a natural one. */
  lemma StaleUnpinRevivesExpiry(s: Store, a: Action)
    requires Inv(s) && Enabled(s, a) && a.Unpin? && s.docs[a.id].body.status.Forgotten?
      && s.docs[a.id].body.expiresAt == 0
    ensures Apply(s, a).docs[a.id].body.expiresAt != 0 <==> a.base.body.naturalExpiresAt != 0
  {
  }

  // ---------------------------------------------------------------- runs in which they part, from the start

  lemma {:induction false} RunConcat(s: Store, first: seq<Action>, second: seq<Action>)
    requires Executable(s, first) && Executable(After(s, first), second)
    ensures Executable(s, first + second) && After(s, first + second) == After(After(s, first), second)
    decreases |first|
  {
    if first == [] {
      assert first + second == second;
    } else {
      RunConcat(Apply(s, first[0]), first[1..], second);
      assert (first + second)[1..] == first[1..] + second;
    }
  }

  lemma RunThen(s: Store, run: seq<Action>, a: Action)
    requires Executable(s, run) && Enabled(After(s, run), a)
    ensures Executable(s, run + [a]) && After(s, run + [a]) == Apply(After(s, run), a)
  {
    assert [a][1..] == [] && Executable(Apply(After(s, run), a), []);
    assert Executable(After(s, run), [a]);
    RunConcat(s, run, [a]);
  }

  function Summary(hash: Id, facts: seq<Fact>, expiry: int): Draft {
    Draft(1, 1, 1, 1, true, false, "s", facts, 1.0, [1], hash, 1, 1, false, Active, expiry, expiry)
  }

  /** A record is learned from the empty store and read. */
  lemma LearnThenRead(draft: Draft) returns (run: seq<Action>, s: Store)
    ensures Executable(EMPTY, run) && After(EMPTY, run) == s
    ensures s == Store(map[1 := Learned(draft, 1, 0)], 0, {Learned(draft, 1, 0)})
  {
    assert Executable(EMPTY, []) && After(EMPTY, []) == EMPTY;
    run := [Insert(1, draft, 0)];
    RunThen(EMPTY, [], Insert(1, draft, 0));
    assert [] + run == run;
    RunThen(EMPTY, run, Read(1));
    run := run + [Read(1)];
    s := After(EMPTY, run);
  }

  /** From the empty store: a summary with a fact is relearned, from changed sources, as one without facts.
      The fact stays, where the locked store would have dropped it. */
  lemma OldFactSurvives(fact: Fact) returns (run: seq<Action>, s: Store, a: Action)
    ensures Executable(EMPTY, run) && After(EMPTY, run) == s && a.Overwrite? && Enabled(s, a) && a.id in s.docs
    ensures a.draft.facts == [] && Apply(s, a).docs[a.id].body.facts == [fact]
    ensures Relearned(s.docs[a.id], a.draft, a.at).body.facts == []
  {
    run, s := LearnThenRead(Summary(1, [fact], 0));
    a := Overwrite(1, s.docs[1], Summary(2, [], 0), 0);
  }

  /** From the empty store: an unpinning reads a summary, the summary is forgotten, and the unpinning then
      gives the forgotten record an expiry. */
  lemma ForgottenThenExpires() returns (run: seq<Action>)
    ensures Executable(EMPTY, run) && 1 in After(EMPTY, run).docs
    ensures var record := After(EMPTY, run).docs[1];
      record.body.status.Forgotten? && record.body.expiresAt == 9 && record.body.naturalExpiresAt == 0
  {
    var s;
    run, s := LearnThenRead(Summary(1, [], 9));
    var base := s.docs[1];
    RunThen(EMPTY, run, Forget(1, 1, 0));
    run := run + [Forget(1, 1, 0)];
    RunThen(EMPTY, run, Unpin(1, 1, base, 0));
    run := run + [Unpin(1, 1, base, 0)];
  }

  // ---------------------------------------------------------------- the curator

  /** The second store is one that a run leads to from the first. */
  ghost predicate LeadsTo(s: Store, t: Store) {
    && Inv(t) && s.clock <= t.clock && s.seen <= t.seen
    && exists run :: Executable(s, run) && After(s, run) == t
  }

  lemma LeadsNowhere(s: Store)
    requires Inv(s)
    ensures LeadsTo(s, s)
  {
    assert Executable(s, []) && After(s, []) == s;
  }

  lemma LeadsByStep(s: Store, a: Action)
    requires Inv(s) && Enabled(s, a)
    ensures LeadsTo(s, Apply(s, a))
  {
    StepKeepsInv(s, a);
    assert Executable(s, []) && After(s, []) == s;
    RunThen(s, [], a);
  }

  lemma LeadsOn(s: Store, t: Store, u: Store)
    requires LeadsTo(s, t) && LeadsTo(t, u)
    ensures LeadsTo(s, u)
  {
    var first :| Executable(s, first) && After(s, first) == t;
    var second :| Executable(t, second) && After(t, second) == u;
    RunConcat(s, first, second);
  }

  class MemoryMongo {
    var docs: map<Id, Record>
    var clock: int
    ghost var seen: set<Record>

    ghost function Snapshot(): Store
      reads this
    {
      Store(docs, clock, seen)
    }

    /** Whatever curators and operators do between two calls: any run at all, or nothing when quiet. */
    method Others(ghost quiet: bool)
      requires Inv(Snapshot())
      modifies this
      ensures quiet ==> Snapshot() == old(Snapshot())
      ensures LeadsTo(old(Snapshot()), Snapshot())
    {
      LeadsNowhere(Snapshot());
    }

    method FindScope(draft: Draft) returns (found: Option<Record>)
      requires Inv(Snapshot())
      modifies this`seen
      ensures LeadsTo(old(Snapshot()), Snapshot())
      ensures found.Some? ==> found.value in seen && found.value in docs.Values && SameScope(found.value.body, draft)
      ensures found.None? ==> !ScopeTaken(docs, draft)
    {
      LeadsNowhere(Snapshot());
      var rest := docs.Keys;
      while rest != {}
        invariant rest <= docs.Keys
        invariant forall id :: id in docs && id !in rest ==> !SameScope(docs[id].body, draft)
      {
        var id :| id in rest;
        if SameScope(docs[id].body, draft) {
          LeadsByStep(Snapshot(), Read(id));
          seen := seen + {docs[id]};
          return Some(docs[id]);
        }
        rest := rest - {id};
      }
      return None;
    }

    method InsertOne(a: Action) returns (landed: bool)
      requires Inv(Snapshot()) && a.Insert? && a.id !in docs && a.at <= clock
      modifies this`docs
      ensures landed <==> Enabled(old(Snapshot()), a)
      ensures Snapshot() == if landed then Apply(old(Snapshot()), a) else old(Snapshot())
      ensures LeadsTo(old(Snapshot()), Snapshot())
    {
      landed := !ScopeTaken(docs, a.draft);
      if landed {
        LeadsByStep(Snapshot(), a);
        docs := docs[a.id := Learned(a.draft, a.id, a.at)];
      } else {
        LeadsNowhere(Snapshot());
      }
    }

    /** Filter: the scope and the revision that was read. At most one document can match. */
    method UpdateByRevision(base: Record, draft: Draft, at: int) returns (saved: Option<Record>)
      requires Inv(Snapshot()) && base in seen && SameScope(base.body, draft) && !Skips(base, draft) && at <= clock
      modifies this`docs
      ensures saved.Some? <==> Enabled(old(Snapshot()), Overwrite(base.id, base, draft, at))
      ensures saved.Some? ==>
        Snapshot() == Apply(old(Snapshot()), Overwrite(base.id, base, draft, at)) && saved.value == docs[base.id]
      ensures saved.None? ==> Snapshot() == old(Snapshot())
      ensures LeadsTo(old(Snapshot()), Snapshot())
    {
      assert SeenOk(Snapshot(), base);
      var id := base.id;
      if docs[id].revision != base.revision {
        LeadsNowhere(Snapshot());
        return None;
      }
      LeadsByStep(Snapshot(), Overwrite(id, base, draft, at));
      docs := docs[id := Overwritten(docs[id], base, draft, at)];
      return Some(docs[id]);
    }

    method FreshId() returns (id: Id)
      ensures id !in docs
    {
      var rest := docs.Keys;
      id := 0;
      while rest != {}
        invariant rest <= docs.Keys && forall k :: k in docs && k !in rest ==> k < id
      {
        var k :| k in rest;
        rest := rest - {k};
        id := if id <= k then k + 1 else id;
      }
    }

    /** `before` is the store in which an answer was decided. There the call stored the draft over nothing or
        over a record it was allowed to replace at that very moment, and changed nothing else; or it found
        a record that it had to leave alone. A call that fails wrote nothing, and reports a conflict only after
        eight attempts, in each of which somebody else wrote the scope between its read and its write; `lost`
        holds the two stores of each. An undisturbed call with a valid draft always answers, and writes
        unless the record of the scope forbids it. */
    method PutGenerated(draft: Draft, ghost quiet: bool)
      returns (r: Result<(Record, bool), Error>, ghost before: Store, ghost lost: seq<(Store, Store)>)
      requires Inv(Snapshot())
      modifies this
      ensures LeadsTo(old(Snapshot()), Snapshot()) && LeadsTo(old(Snapshot()), before)
      ensures r.Err? ==> r.error in {Invalid, Conflict} && (quiet ==> r.error == Invalid)
      ensures r.Err? && r.error == Invalid <==>
        0 in {draft.org, draft.channel, draft.scopeKey, draft.sourceHash} || draft.status.Forgotten?
          || ValidText(draft.text).None?
      ensures forall i :: 0 <= i < |lost| ==>
        LeadsTo(old(Snapshot()), lost[i].0) && Overtaken(lost[i].0, lost[i].1, draft)
      ensures if r == Err(Conflict) then |lost| == 8 else |lost| < 8
      ensures r.Ok? && r.value.1 ==>
        && old(clock) <= r.value.0.updatedAt && Stored(before, draft, r.value.0)
        && Snapshot() == before.(docs := before.docs[r.value.0.id := r.value.0])
      ensures r.Ok? && !r.value.1 ==>
        && LeadsTo(before, Snapshot()) && docs == before.docs
        && r.value.0 in before.docs.Values && SameScope(r.value.0.body, draft) && Skips(r.value.0, draft)
      ensures quiet ==> before.docs == old(docs) && (r.Ok? && r.value.1 ==> r.value.0.updatedAt == old(clock))
    {
      LeadsNowhere(Snapshot());
      before, lost := Snapshot(), [];
      var text := ValidText(draft.text);
      if 0 in {draft.org, draft.channel, draft.scopeKey, draft.sourceHash} || draft.status.Forgotten? || text.None? {
        return Err(Invalid), before, lost;
      }
      var clean := draft.(text := text.value);
      for attempt := 0 to 8
        invariant LeadsTo(old(Snapshot()), Snapshot()) && LeadsTo(old(Snapshot()), before) && |lost| == attempt
        invariant forall i :: 0 <= i < attempt ==>
          LeadsTo(old(Snapshot()), lost[i].0) && Overtaken(lost[i].0, lost[i].1, draft)
        invariant quiet ==> attempt == 0 && docs == old(docs) && clock == old(clock) && before.docs == old(docs)
      {
        ghost var s, looked := Snapshot(), before;
        var answer;
        answer, looked, before := Attempt(draft, clean, quiet);
        LeadsOn(old(Snapshot()), s, Snapshot());
        LeadsOn(old(Snapshot()), s, before);
        LeadsOn(old(Snapshot()), s, looked);
        if answer.Some? {
          return Ok(answer.value), before, lost;
        }
        lost := lost + [(looked, before)];
      }
      return Err(Conflict), before, lost;
    }

    /** One read, and one write if that is called for. */
    method Attempt(draft: Draft, clean: Draft, ghost quiet: bool)
      returns (answer: Option<(Record, bool)>, ghost looked: Store, ghost before: Store)
      requires Inv(Snapshot()) && ValidText(draft.text).Some? && clean == draft.(text := ValidText(draft.text).value)
      modifies this
      ensures LeadsTo(old(Snapshot()), Snapshot()) && LeadsTo(old(Snapshot()), looked)
        && LeadsTo(old(Snapshot()), before)
      ensures quiet ==>
        answer.Some? && before.docs == old(docs)
        && (answer.value.1 ==> answer.value.0.updatedAt == old(clock))
      ensures answer.None? ==> Overtaken(looked, before, draft)
      ensures answer.Some? && answer.value.1 ==>
        && old(clock) <= answer.value.0.updatedAt && Stored(before, draft, answer.value.0)
        && Snapshot() == before.(docs := before.docs[answer.value.0.id := answer.value.0])
      ensures answer.Some? && !answer.value.1 ==>
        && LeadsTo(before, Snapshot()) && docs == before.docs && answer.value.0 in before.docs.Values
        && SameScope(answer.value.0.body, draft) && Skips(answer.value.0, draft)
    {
      var existing, now;
      existing, now, looked := Look(clean, quiet);
      if existing.Some? && Skips(existing.value, clean) {
        return Some((existing.value, false)), looked, looked;
      }
      ghost var s := Snapshot();
      var saved;
      saved, before := TryWrite(existing, clean, now, quiet);
      LeadsOn(old(Snapshot()), s, Snapshot());
      LeadsOn(old(Snapshot()), s, before);
      LeadsOn(looked, s, before);
      if saved.Some? {
        CleanStores(before, draft, saved.value);
        return Some((saved.value, true)), looked, before;
      }
      SameTaken(looked.docs, clean, draft);
      SameTaken(before.docs, clean, draft);
      return None, looked, before;
    }

    /** The write, after anything the others do: `before` is the store it acted on. */
    method TryWrite(existing: Option<Record>, clean: Draft, now: int, ghost quiet: bool)
      returns (saved: Option<Record>, ghost before: Store)
      requires Inv(Snapshot()) && now <= clock && ValidText(clean.text) == Some(clean.text)
      requires existing.Some? ==>
        existing.value in seen && SameScope(existing.value.body, clean) && !Skips(existing.value, clean)
      modifies this
      ensures LeadsTo(old(Snapshot()), Snapshot()) && LeadsTo(old(Snapshot()), before)
        && (quiet ==> before == old(Snapshot()))
      ensures saved.None? ==>
        && docs == before.docs
        && (if existing.None? then ScopeTaken(before.docs, clean) else existing.value !in before.docs.Values)
      ensures saved.Some? ==>
        && Stored(before, clean, saved.value) && saved.value.updatedAt == now
        && Snapshot() == before.(docs := before.docs[saved.value.id := saved.value])
    {
      Others(quiet);
      before := Snapshot();
      saved := Write(existing, clean, now);
      LeadsOn(old(Snapshot()), before, Snapshot());
    }

    /** Reads the record of the scope at some moment, and then the clock. */
    method Look(clean: Draft, ghost quiet: bool) returns (existing: Option<Record>, now: int, ghost before: Store)
      requires Inv(Snapshot())
      modifies this
      ensures LeadsTo(old(Snapshot()), Snapshot()) && LeadsTo(old(Snapshot()), before) && LeadsTo(before, Snapshot())
      ensures docs == before.docs && old(clock) <= now == clock && (quiet ==> docs == old(docs) && clock == old(clock))
      ensures existing.Some? ==>
        existing.value in seen && existing.value in docs.Values && SameScope(existing.value.body, clean)
      ensures existing.None? ==> !ScopeTaken(docs, clean)
    {
      Others(quiet);
      before := Snapshot();
      existing := FindScope(clean);
      LeadsOn(old(Snapshot()), before, Snapshot());
      now := clock;
    }

    /** Inserts where nothing was found, and otherwise overwrites what was found. */
    method Write(existing: Option<Record>, clean: Draft, now: int) returns (saved: Option<Record>)
      requires Inv(Snapshot()) && now <= clock && ValidText(clean.text) == Some(clean.text)
      requires existing.Some? ==>
        existing.value in seen && SameScope(existing.value.body, clean) && !Skips(existing.value, clean)
      modifies this`docs
      ensures LeadsTo(old(Snapshot()), Snapshot())
      ensures saved.None? ==> docs == old(docs)
      ensures if existing.None? then !ScopeTaken(old(docs), clean) ==> saved.Some?
        else existing.value in old(docs).Values ==> saved.Some?
      ensures saved.Some? ==>
        Stored(old(Snapshot()), clean, saved.value) && saved.value.updatedAt == now
          && docs == old(docs)[saved.value.id := saved.value]
    {
      if existing.None? {
        var id := FreshId();
        var landed := InsertOne(Insert(id, clean, now));
        return if landed then Some(docs[id]) else None;
      }
      ghost var s := Snapshot();
      assert SeenOk(s, existing.value);
      saved := UpdateByRevision(existing.value, clean, now);
      if saved.Some? {
        OverwriteIsFair(s, Overwrite(existing.value.id, existing.value, clean, now));
        assert SameScope(s.docs[existing.value.id].body, clean);
      }
    }
  }

  /** Between the two stores somebody else wrote the scope: there is a record where there was none, or the one that
      might have been replaced is no longer the same. */
  ghost predicate Overtaken(looked: Store, tried: Store, draft: Draft) {
    LeadsTo(looked, tried)
    && if !ScopeTaken(looked.docs, draft) then ScopeTaken(tried.docs, draft)
       else exists r ::
         r in looked.docs.Values && SameScope(r.body, draft) && !Skips(r, draft) && r !in tried.docs.Values
  }

  /** The record is what a generated write makes of the draft in that store. */
  predicate Stored(before: Store, draft: Draft, saved: Record) {
    ValidText(draft.text).Some?
    && var clean := draft.(text := ValidText(draft.text).value);
       if ScopeTaken(before.docs, draft) then
         && saved.id in before.docs && !Skips(before.docs[saved.id], draft)
         && SameScope(before.docs[saved.id].body, draft)
         && saved == Record(saved.id, Merged(before.docs[saved.id].body, clean), FromModel,
                            before.docs[saved.id].revision + 1, before.docs[saved.id].createdAt, saved.updatedAt)
       else saved == Learned(clean, saved.id, saved.updatedAt) && saved.id !in before.docs
  }

  /** Trimming twice is trimming once, so a clean draft stores what the draft itself would. */
  lemma CleanStores(before: Store, draft: Draft, saved: Record)
    requires ValidText(draft.text).Some?
    requires Stored(before, draft.(text := ValidText(draft.text).value), saved)
    ensures Stored(before, draft, saved)
  {
    SameTaken(before.docs, draft.(text := ValidText(draft.text).value), draft);
  }

  lemma SameTaken(docs: map<Id, Record>, a: Draft, b: Draft)
    requires SameScope(a, b)
    ensures ScopeTaken(docs, a) <==> ScopeTaken(docs, b)
  {
    if ScopeTaken(docs, a) {
      var id :| id in docs && SameScope(docs[id].body, a);
      assert SameScope(docs[id].body, b);
    }
    if ScopeTaken(docs, b) {
      var id :| id in docs && SameScope(docs[id].body, b);
      assert SameScope(docs[id].body, a);
    }
  }
}
