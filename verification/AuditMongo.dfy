/** The shared audit chain (core/audit/mongo.go): any number of appenders over one receipt collection
    and one head document per organization.

    A store changes only by the actions below, each one Mongo call; a run is any sequence of enabled
    actions, so it covers every interleaving of every number of appenders, each of which may stop for
    good after any call. `seen` is an auxiliary record of every head some appender has read. */
module AuditMongo {
  import opened Prelude
  import opened AuditChain

  datatype Head = Head(org: string, sequence: nat, hash: Digest, version: nat)

  datatype Store = Store(log: seq<Receipt>, heads: map<string, Head>, seen: set<Head>)

  datatype Action =
    | ReadHead(org: string)
    | Insert(base: Head, receipt: Receipt)
    | Advance(base: Head, receipt: Receipt)

  const EMPTY := Store([], map[], {})

  /** One organization's receipts, oldest insert first. */
  function OrgLog(log: seq<Receipt>, org: string): seq<Receipt> {
    if log == [] then []
    else
      var last, before := log[|log| - 1], OrgLog(log[..|log| - 1], org);
      if last.body.org == org then before + [last] else before
  }

  lemma OrgLogPush(log: seq<Receipt>, r: Receipt, org: string)
    ensures OrgLog(log + [r], org) == if r.body.org == org then OrgLog(log, org) + [r] else OrgLog(log, org)
  {
    assert (log + [r])[..|log|] == log;
  }

  lemma {:induction false} OrgLogMembers(log: seq<Receipt>, org: string)
    ensures forall r :: r in OrgLog(log, org) <==> r in log && r.body.org == org
  {
    if log != [] {
      OrgLogMembers(log[..|log| - 1], org);
      assert log == log[..|log| - 1] + [log[|log| - 1]];
    }
  }

  /** A missing head document reads as sequence 0, version 0 and an empty hash. */
  function HeadOf(heads: map<string, Head>, org: string): Head {
    if org in heads then heads[org] else Head(org, 0, NoDigest, 0)
  }

  /** The three unique indexes on receipts: organization and sequence, identifier, and organization and
      idempotency key when there is one. */
  predicate Clash(a: Receipt, b: Receipt) {
    || (a.body.org == b.body.org && a.body.sequence == b.body.sequence)
    || a.body.id == b.body.id
    || (a.body.org == b.body.org && a.body.key == b.body.key && a.body.key != "")
  }

  predicate Duplicate(log: seq<Receipt>, r: Receipt) {
    exists other :: other in log && Clash(other, r)
  }

  /** The receipt continues the chain the head stands for. */
  predicate Follows(base: Head, r: Receipt) {
    && r.body.org == base.org && r.body.sequence == base.sequence + 1
    && r.body.previous == base.hash && r.hash == Sha(r.body)
  }

  /** The request a receipt answers, its content read back out of the commitment. */
  function RequestOf(r: Receipt): Request {
    var content :=
      if r.body.commitment.Some? && |r.body.commitment.value| > |r.body.event.epoch|
      then r.body.commitment.value[|r.body.event.epoch| + 1..] else "";
    Request(r.body.org, r.body.event, r.body.key, content)
  }

  /** The receipt is what an appender builds for some request. */
  predicate Sealed(r: Receipt) {
    r == Seal(RequestOf(r), r.body.id, r.body.sequence, r.body.previous, r.body.createdAt)
  }

  lemma SealIsSealed(request: Request, id: string, sequence: nat, previous: Digest, at: int)
    ensures Sealed(Seal(request, id, sequence, previous, at))
    ensures RequestOf(Seal(request, id, sequence, previous, at)) == request
  {
    var epoch := request.event.epoch;
    assert (epoch + ['\0'] + request.content)[|epoch| + 1..] == request.content;
  }

  /** The compare-and-set of a head: it matches on organization, sequence and version, and a version 0
      read may also create the document. */
  predicate HeadMatches(heads: map<string, Head>, base: Head) {
    if base.org in heads then heads[base.org].sequence == base.sequence && heads[base.org].version == base.version
    else base.version == 0
  }

  function Advanced(base: Head, r: Receipt): Head {
    Head(base.org, base.sequence + 1, r.hash, base.version + 1)
  }

  predicate Enabled(s: Store, a: Action) {
    match a
    case ReadHead(org) => true
    case Insert(base, r) => base in s.seen && Follows(base, r) && Sealed(r) && !Duplicate(s.log, r)
    case Advance(base, r) => base in s.seen && Follows(base, r) && r in s.log && HeadMatches(s.heads, base)
  }

  function Apply(s: Store, a: Action): Store {
    match a
    case ReadHead(org) => s.(seen := s.seen + {HeadOf(s.heads, org)})
    case Insert(base, r) => s.(log := s.log + [r])
    case Advance(base, r) => s.(heads := s.heads[base.org := Advanced(base, r)])
  }

  ghost predicate Executable(s: Store, run: seq<Action>)
    decreases |run|
  {
    run == [] || (Enabled(s, run[0]) && Executable(Apply(s, run[0]), run[1..]))
  }

  ghost function After(s: Store, run: seq<Action>): Store
    decreases |run|
  {
    if run == [] then s else After(Apply(s, run[0]), run[1..])
  }

  ghost predicate Reaches(s: Store, t: Store) {
    exists run :: Executable(s, run) && t == After(s, run)
  }

  // ---------------------------------------------------------------- the invariant

  /** The organization's receipts form one gapless chain, and its head names the last receipt or the
      one before it. */
  ghost predicate OrgInv(log: seq<Receipt>, heads: map<string, Head>, org: string) {
    var chain, head := OrgLog(log, org), HeadOf(heads, org);
    && Linked(chain)
    && head.org == org && head.version == head.sequence
    && |chain| <= head.sequence + 1 && head.sequence <= |chain|
    && head.hash == HashAt(chain, head.sequence)
  }

  ghost predicate ReadInv(s: Store, h: Head) {
    && h.version == h.sequence <= HeadOf(s.heads, h.org).sequence
    && h.sequence <= |OrgLog(s.log, h.org)| && h.hash == HashAt(OrgLog(s.log, h.org), h.sequence)
  }

  ghost predicate NoClash(log: seq<Receipt>) {
    forall i, j :: 0 <= i < |log| && 0 <= j < |log| && i != j ==> !Clash(log[i], log[j])
  }

  ghost predicate Inv(s: Store) {
    && (forall org :: OrgInv(s.log, s.heads, org))
    && (forall h :: h in s.seen ==> ReadInv(s, h))
    && NoClash(s.log)
  }

  /** An insert that the indexes let through extends the whole chain: its base is the current head, and
      the head already names the last receipt. */
  lemma InsertExtendsTip(s: Store, base: Head, r: Receipt)
    requires Inv(s) && Enabled(s, Insert(base, r))
    ensures var chain := OrgLog(s.log, r.body.org);
            base.sequence == |chain| && HeadOf(s.heads, base.org) == base
  {
    var chain := OrgLog(s.log, base.org);
    assert OrgInv(s.log, s.heads, base.org) && ReadInv(s, base);
    if base.sequence < |chain| {
      assert LinkAt(chain, base.sequence);
      OrgLogMembers(s.log, base.org);
      assert chain[base.sequence] in s.log && Clash(chain[base.sequence], r);
      assert false;
    }
  }

  /** A successful compare-and-set moves the head from one receipt to the next, and the receipt it
      names is the one in the chain. */
  lemma AdvanceAdopts(s: Store, base: Head, r: Receipt)
    requires Inv(s) && Enabled(s, Advance(base, r))
    ensures var chain := OrgLog(s.log, base.org);
            base == HeadOf(s.heads, base.org) && |chain| == base.sequence + 1 && chain[base.sequence] == r
  {
    var chain := OrgLog(s.log, base.org);
    assert OrgInv(s.log, s.heads, base.org) && ReadInv(s, base);
    OrgLogMembers(s.log, base.org);
    assert r in chain;
    var i :| 0 <= i < |chain| && chain[i] == r;
    assert LinkAt(chain, i);
  }

  lemma InsertKeepsOrg(s: Store, base: Head, r: Receipt, org: string)
    requires Inv(s) && Enabled(s, Insert(base, r))
    ensures OrgInv(s.log + [r], s.heads, org)
  {
    InsertExtendsTip(s, base, r);
    var chain := OrgLog(s.log, org);
    assert OrgInv(s.log, s.heads, org);
    OrgLogPush(s.log, r, org);
    if org == r.body.org {
      LinkedExtend(chain, r);
    }
  }

  lemma InsertKeepsNoClash(log: seq<Receipt>, r: Receipt)
    requires NoClash(log) && !Duplicate(log, r)
    ensures NoClash(log + [r])
  {
    var longer := log + [r];
    forall i, j | 0 <= i < |longer| && 0 <= j < |longer| && i != j ensures !Clash(longer[i], longer[j]) {
      assert i < |log| ==> longer[i] in log;
      assert j < |log| ==> longer[j] in log;
    }
  }

  lemma InsertKeepsInv(s: Store, base: Head, r: Receipt)
    requires Inv(s) && Enabled(s, Insert(base, r))
    ensures Inv(Apply(s, Insert(base, r)))
  {
    var t := Apply(s, Insert(base, r));
    forall org ensures OrgInv(t.log, t.heads, org) {
      InsertKeepsOrg(s, base, r, org);
    }
    forall h | h in t.seen ensures ReadInv(t, h) {
      assert ReadInv(s, h);
      OrgLogPush(s.log, r, h.org);
    }
    InsertKeepsNoClash(s.log, r);
  }

  lemma AdvanceKeepsInv(s: Store, base: Head, r: Receipt)
    requires Inv(s) && Enabled(s, Advance(base, r))
    ensures Inv(Apply(s, Advance(base, r)))
  {
    var t := Apply(s, Advance(base, r));
    AdvanceAdopts(s, base, r);
    forall org ensures OrgInv(t.log, t.heads, org) {
      assert OrgInv(s.log, s.heads, org);
    }
    forall h | h in t.seen ensures ReadInv(t, h) {
      assert ReadInv(s, h);
    }
  }

  lemma StepKeepsInv(s: Store, a: Action)
    requires Inv(s) && Enabled(s, a)
    ensures Inv(Apply(s, a))
  {
    match a
    case ReadHead(org) =>
      var t := Apply(s, a);
      assert OrgInv(s.log, s.heads, org);
      forall h | h in t.seen ensures ReadInv(t, h) {
        assert h in s.seen ==> ReadInv(s, h);
      }
    case Insert(base, r) => InsertKeepsInv(s, base, r);
    case Advance(base, r) => AdvanceKeepsInv(s, base, r);
  }

  /** What every later store keeps: receipts are only added, and heads only move forward. */
  ghost predicate Extends(s: Store, t: Store) {
    && s.seen <= t.seen
    && (forall r :: r in s.log ==> r in t.log)
    && (forall org :: HeadOf(s.heads, org).sequence <= HeadOf(t.heads, org).sequence)
  }

  /** Safety over whole runs. */
  lemma {:induction false} RunKeepsInv(s: Store, run: seq<Action>)
    requires Inv(s) && Executable(s, run)
    ensures Inv(After(s, run)) && Extends(s, After(s, run))
    decreases |run|
  {
    if run != [] {
      var a, t := run[0], Apply(s, run[0]);
      StepKeepsInv(s, a);
      if a.Advance? {
        AdvanceAdopts(s, a.base, a.receipt);
      }
      assert Extends(s, t);
      RunKeepsInv(t, run[1..]);
    }
  }

  lemma EveryRunIsSafe(run: seq<Action>)
    requires Executable(EMPTY, run)
    ensures Inv(After(EMPTY, run))
  {
    assert forall org :: OrgInv(EMPTY.log, EMPTY.heads, org);
    RunKeepsInv(EMPTY, run);
  }

  lemma ReachKeeps(s: Store, t: Store)
    requires Inv(s) && Reaches(s, t)
    ensures Inv(t) && Extends(s, t)
  {
    var run :| Executable(s, run) && t == After(s, run);
    RunKeepsInv(s, run);
  }

  /** The second store is one that a run leads to from the first. */
  ghost predicate LeadsTo(s: Store, t: Store) {
    Inv(t) && Extends(s, t) && Reaches(s, t)
  }

  lemma LeadsNowhere(s: Store)
    requires Inv(s)
    ensures LeadsTo(s, s)
  {
    assert Executable(s, []) && After(s, []) == s;
  }

  lemma LeadsByStep(s: Store, a: Action)
    requires Inv(s) && Enabled(s, a)
    ensures LeadsTo(s, Apply(s, a))
  {
    var t := Apply(s, a);
    assert [a][1..] == [] && Executable(t, []) && After(t, []) == t;
    assert Executable(s, [a]) && After(s, [a]) == t;
    ReachKeeps(s, t);
  }

  lemma {:induction false} RunConcat(s: Store, first: seq<Action>, second: seq<Action>)
    requires Executable(s, first) && Executable(After(s, first), second)
    ensures Executable(s, first + second) && After(s, first + second) == After(After(s, first), second)
    decreases |first|
  {
    if first == [] {
      assert first + second == second;
    } else {
      RunConcat(Apply(s, first[0]), first[1..], second);
      assert (first + second)[1..] == first[1..] + second;
    }
  }

  lemma LeadsOn(s: Store, t: Store, u: Store)
    requires LeadsTo(s, t) && LeadsTo(t, u)
    ensures LeadsTo(s, u)
  {
    var first :| Executable(s, first) && t == After(s, first);
    var second :| Executable(t, second) && u == After(t, second);
    RunConcat(s, first, second);
  }

  // ---------------------------------------------------------------- verification

  predicate BySequence(receipts: seq<Receipt>) {
    forall i, j :: 0 <= i < j < |receipts| ==> receipts[i].body.sequence <= receipts[j].body.sequence
  }

  /** The receipts, in whatever order they were listed, make up this linked chain. */
  ghost predicate Arranges(chain: seq<Receipt>, receipts: seq<Receipt>) {
    multiset(chain) == multiset(receipts) && Linked(chain)
  }

  lemma LastApart(receipts: seq<Receipt>)
    requires receipts != []
    ensures var m := |receipts| - 1; multiset(receipts[..m]) == multiset(receipts) - multiset{receipts[m]}
  {
    assert receipts == receipts[..|receipts| - 1] + [receipts[|receipts| - 1]];
  }

  /** The last link is the one receipt with the highest sequence. */
  lemma SameLast(chain: seq<Receipt>, sorted: seq<Receipt>)
    requires Linked(chain) && BySequence(sorted) && chain != [] && sorted != [] && |sorted| == |chain|
    requires chain[|chain| - 1] in sorted && sorted[|sorted| - 1] in chain
    ensures sorted[|sorted| - 1] == chain[|chain| - 1]
  {
    var m := |chain| - 1;
    var i :| 0 <= i < |sorted| && sorted[i] == chain[m];
    var k :| 0 <= k < |chain| && chain[k] == sorted[m];
    assert LinkAt(chain, m) && LinkAt(chain, k);
  }

  lemma ArrangesBefore(chain: seq<Receipt>, sorted: seq<Receipt>)
    requires Arranges(chain, sorted) && chain != [] && sorted != [] && |sorted| == |chain|
    requires sorted[|sorted| - 1] == chain[|chain| - 1]
    ensures Arranges(chain[..|chain| - 1], sorted[..|sorted| - 1])
  {
    LastApart(chain);
    LastApart(sorted);
    LinkedPrefix(chain, |chain| - 1);
  }

  /** Receipts make up at most one chain, and sorting them by sequence finds it. */
  lemma {:induction false} OnlyArrangement(chain: seq<Receipt>, sorted: seq<Receipt>)
    requires Arranges(chain, sorted) && BySequence(sorted)
    ensures chain == sorted
    decreases |chain|
  {
    assert |multiset(chain)| == |chain| && |multiset(sorted)| == |sorted|;
    if chain != [] {
      var m := |chain| - 1;
      assert chain[m] in multiset(chain) && sorted[m] in multiset(sorted);
      SameLast(chain, sorted);
      ArrangesBefore(chain, sorted);
      OnlyArrangement(chain[..m], sorted[..m]);
      assert chain == chain[..m] + [chain[m]] && sorted == sorted[..m] + [sorted[m]];
    }
  }

  lemma InsertedInOrder(front: seq<Receipt>, r: Receipt, back: seq<Receipt>)
    requires BySequence(front + back) && forall a :: a in front ==> a.body.sequence <= r.body.sequence
    requires back != [] ==> r.body.sequence < back[0].body.sequence
    ensures BySequence(front + [r] + back)
  {
    var before, after := front + back, front + [r] + back;
    assert forall i :: 0 <= i < |front| ==> before[i] == front[i] && front[i] in front && after[i] == front[i];
    assert forall i :: 0 <= i < |back| ==> before[|front| + i] == back[i] && after[|front| + 1 + i] == back[i];
    assert forall i :: 0 <= i < |back| ==> r.body.sequence <= back[i].body.sequence;
  }

  method InsertSorted(r: Receipt, sorted: seq<Receipt>) returns (result: seq<Receipt>)
    requires BySequence(sorted)
    ensures BySequence(result) && multiset(result) == multiset(sorted) + multiset{r}
  {
    var i := 0;
    while i < |sorted| && sorted[i].body.sequence <= r.body.sequence
      invariant 0 <= i <= |sorted|
      invariant forall k :: 0 <= k < i ==> sorted[k].body.sequence <= r.body.sequence
    {
      i := i + 1;
    }
    assert sorted == sorted[..i] + sorted[i..];
    InsertedInOrder(sorted[..i], r, sorted[i..]);
    result := sorted[..i] + [r] + sorted[i..];
  }

  method Sort(receipts: seq<Receipt>) returns (sorted: seq<Receipt>)
    ensures BySequence(sorted) && multiset(sorted) == multiset(receipts)
  {
    sorted := [];
    for i := 0 to |receipts|
      invariant BySequence(sorted) && multiset(sorted) == multiset(receipts[..i])
    {
      sorted := InsertSorted(receipts[i], sorted);
      assert receipts[..i + 1] == receipts[..i] + [receipts[i]];
    }
    assert receipts[..|receipts|] == receipts;
  }

  predicate MatchesHead(chain: seq<Receipt>, head: Head) {
    head.sequence == |chain| && head.hash == HashAt(chain, |chain|)
  }

  /** The links of any receipts, forged ones and any order of listing included: no defect is found exactly
      when they make up a chain, and otherwise it is the first one in the order of their sequences. */
  method JudgeLinks(receipts: seq<Receipt>) returns (verdict: Verdict, sorted: seq<Receipt>)
    ensures BySequence(sorted) && multiset(sorted) == multiset(receipts)
    ensures verdict.Intact? <==> exists chain :: Arranges(chain, receipts)
    ensures if verdict.Intact? then Arranges(sorted, receipts) else FirstBroken(sorted, verdict)
  {
    sorted := Sort(receipts);
    verdict := VerifyLinks(sorted);
    if chain :| Arranges(chain, receipts) {
      OnlyArrangement(chain, sorted);
    } else {
      assert !Arranges(sorted, receipts);
    }
  }

  /** Any receipts and any head are intact exactly when the receipts make up a chain that ends where the
      head says; they mismatch exactly when they make up another. */
  method Judge(receipts: seq<Receipt>, head: Head) returns (verdict: Verdict)
    ensures verdict.Intact? <==> exists chain :: Arranges(chain, receipts) && MatchesHead(chain, head)
    ensures verdict.HeadMismatch? <==> exists chain :: Arranges(chain, receipts) && !MatchesHead(chain, head)
    ensures verdict.Discontinuity? || verdict.Tampered? ==>
      exists sorted :: BySequence(sorted) && multiset(sorted) == multiset(receipts) && FirstBroken(sorted, verdict)
  {
    var sorted;
    verdict, sorted := JudgeLinks(receipts);
    if verdict.Intact? {
      forall chain | Arranges(chain, receipts) ensures chain == sorted {
        OnlyArrangement(chain, sorted);
      }
      verdict := if MatchesHead(sorted, head) then Intact else HeadMismatch;
    }
  }

  /** Receipts listed in one store against the head read in a later one: the links are always in order. The
      head is the one before the last listed receipt (an orphan all along), or names that receipt, or has
      moved past it. */
  lemma TwoReads(s: Store, t: Store, org: string)
    requires Inv(s) && LeadsTo(s, t)
    ensures var chain, head := OrgLog(s.log, org), HeadOf(t.heads, org);
      && Linked(chain) && |chain| - 1 <= head.sequence <= |OrgLog(t.log, org)|
      && (MatchesHead(chain, head) <==> head.sequence == |chain|)
      && (head.sequence < |chain| ==> !AtTip(s, org))
  {
    var chain, head := OrgLog(s.log, org), HeadOf(t.heads, org);
    assert OrgInv(s.log, s.heads, org) && OrgInv(t.log, t.heads, org);
    if head.sequence == |chain| && chain != [] {
      ReceiptsStayPut(s, t, org, |chain| - 1);
    }
  }

  /** A receipt keeps its place in the chain for good. */
  lemma ReceiptsStayPut(s: Store, t: Store, org: string, n: nat)
    requires Inv(s) && Inv(t) && Extends(s, t) && n < |OrgLog(s.log, org)|
    ensures n < |OrgLog(t.log, org)| && OrgLog(t.log, org)[n] == OrgLog(s.log, org)[n]
  {
    var chain, later := OrgLog(s.log, org), OrgLog(t.log, org);
    assert OrgInv(s.log, s.heads, org) && OrgInv(t.log, t.heads, org);
    assert LinkAt(chain, n) && chain[n] in chain;
    OrgLogMembers(s.log, org);
    OrgLogMembers(t.log, org);
    var i :| 0 <= i < |later| && later[i] == chain[n];
    assert LinkAt(later, i);
  }

  /** An append that completes between the two reads makes them mismatch, though both stores are intact. */
  lemma MismatchWithoutDefect(s: Store, request: Request, id: string, at: int) returns (run: seq<Action>)
    requires Inv(s) && AtTip(s, request.org) && Unused(s.log, id, request.org, request.key)
    ensures Executable(s, run) && |run| <= 5
    ensures var t := After(s, run);
      && LeadsTo(s, t) && AtTip(t, request.org)
      && !MatchesHead(OrgLog(s.log, request.org), HeadOf(t.heads, request.org))
  {
    run := NeverStuck(s, request, id, at);
    RunKeepsInv(s, run);
    var chain := OrgLog(s.log, request.org);
    OrgLogPush(s.log, Seal(request, id, |chain| + 1, HashAt(chain, |chain|), at), request.org);
  }

  // ---------------------------------------------------------------- refinement of the locked chain

  /** The locked chain a store stands for: each organization's receipts in insertion order. */
  ghost predicate Represents(log: seq<Receipt>, c: State) {
    && (forall org :: ChainOf(c, org) == OrgLog(log, org))
    && IndexSound(c)
    && (forall r :: r in log && r.body.key != "" ==> Composite(r.body.org, r.body.key) in c.byKey)
  }

  /** An insert that went through carries a key the locked index does not know yet. */
  lemma InsertKeyIsNew(s: Store, base: Head, r: Receipt, c: State)
    requires Inv(s) && Enabled(s, Insert(base, r)) && Represents(s.log, c) && r.body.key != ""
    requires Composite(r.body.org, r.body.key) in c.byKey ==>
               c.byKey[Composite(r.body.org, r.body.key)].body.org == r.body.org
    ensures Composite(r.body.org, r.body.key) !in c.byKey
  {
    var index := Composite(r.body.org, r.body.key);
    if index in c.byKey {
      var other := c.byKey[index];
      assert index[|r.body.org| + 1..] == other.body.key && index[|r.body.org| + 1..] == r.body.key;
      assert other in ChainOf(c, r.body.org);
      OrgLogMembers(s.log, r.body.org);
      assert other in s.log && Clash(other, r);
    }
  }

  lemma PushRepresents(log: seq<Receipt>, r: Receipt, c: State, c': State)
    requires Represents(log, c) && (r.body.key != "" ==> Composite(r.body.org, r.body.key) !in c.byKey)
    requires c'.receipts == c.receipts[r.body.org := ChainOf(c, r.body.org) + [r]]
    requires c'.byKey == if r.body.key != "" then c.byKey[Composite(r.body.org, r.body.key) := r] else c.byKey
    ensures Represents(log + [r], c')
  {
    forall org ensures ChainOf(c', org) == OrgLog(log + [r], org) {
      OrgLogPush(log, r, org);
    }
    assert IndexSound(c') by {
      forall index | index in c'.byKey
        ensures var receipt := c'.byKey[index];
          receipt.body.org in c'.receipts && receipt in c'.receipts[receipt.body.org] {
        assert index in c.byKey || c'.byKey[index] == r;
      }
    }
  }

  /** The locked chain, asked the same question, appends this receipt and still represents the log. */
  ghost predicate TakesAsWell(log: seq<Receipt>, r: Receipt, c: State) {
    var (c', receipt) := Appended(c, RequestOf(r), r.body.id, r.body.createdAt);
    receipt == r && Represents(log + [r], c')
  }

  /** The insert is the linearization point: at that moment the locked chain, asked the same question,
      appends the very same receipt. The composite key of the locked index must not already belong to
      another organization. */
  lemma InsertRefinesChain(s: Store, base: Head, r: Receipt, c: State)
    requires Inv(s) && Represents(s.log, c) && Enabled(s, Insert(base, r))
    requires r.body.key != "" && Composite(r.body.org, r.body.key) in c.byKey ==>
               c.byKey[Composite(r.body.org, r.body.key)].body.org == r.body.org
    ensures TakesAsWell(s.log, r, c)
  {
    InsertExtendsTip(s, base, r);
    assert OrgInv(s.log, s.heads, r.body.org);
    if r.body.key != "" {
      InsertKeyIsNew(s, base, r, c);
    }
    assert ChainOf(c, r.body.org) == OrgLog(s.log, r.body.org);
    var (c', receipt) := Appended(c, RequestOf(r), r.body.id, r.body.createdAt);
    assert receipt == r;
    PushRepresents(s.log, r, c, c');
  }

  /** The locked chain after it has been asked for every stored receipt in insertion order. */
  function Replay(log: seq<Receipt>): State {
    if log == [] then State(map[], map[])
    else
      var last := log[|log| - 1];
      Appended(Replay(log[..|log| - 1]), RequestOf(last), last.body.id, last.body.createdAt).0
  }

  /** The entry of the locked index a receipt is filed under. */
  function IndexOf(r: Receipt): string {
    Composite(r.body.org, r.body.key)
  }

  /** No entry of the locked index would belong to two organizations. */
  ghost predicate OneOrgPerIndex(log: seq<Receipt>) {
    forall a, b :: a in log && b in log && a.body.key != "" && b.body.key != "" && IndexOf(a) == IndexOf(b) ==>
      a.body.org == b.body.org
  }

  /** With no slash in any organization identifier that is the case, whatever the keys. */
  lemma SlashFreeIsEnough(log: seq<Receipt>)
    requires forall r :: r in log ==> '/' !in r.body.org
    ensures OneOrgPerIndex(log)
  {
    forall a, b | a in log && b in log && IndexOf(a) == IndexOf(b) ensures a.body.org == b.body.org {
      var m, n, whole := |a.body.org|, |b.body.org|, IndexOf(a);
      assert whole[m] == '/' && whole[n] == '/';
      assert forall i :: 0 <= i < m ==> whole[i] == a.body.org[i];
      assert forall i :: 0 <= i < n ==> whole[i] == b.body.org[i];
      assert whole[..m] == a.body.org && whole[..n] == b.body.org;
    }
  }

  /** The entry of a receipt about to be inserted belongs to no other organization. */
  lemma EntryIsOwn(log: seq<Receipt>, r: Receipt, c: State)
    requires Represents(log, c) && OneOrgPerIndex(log + [r]) && r.body.key != "" && IndexOf(r) in c.byKey
    ensures c.byKey[IndexOf(r)].body.org == r.body.org
  {
    var other := c.byKey[IndexOf(r)];
    OrgLogMembers(log, other.body.org);
    assert other in ChainOf(c, other.body.org);
    assert other in log + [r] && r in log + [r];
  }

  lemma StepRepresents(s: Store, a: Action, c: State)
    requires Inv(s) && Enabled(s, a) && Represents(s.log, c) && OneOrgPerIndex(Apply(s, a).log)
    ensures if !a.Insert? then Apply(s, a).log == s.log
      else TakesAsWell(s.log, a.receipt, c)
  {
    if a.Insert? {
      if a.receipt.body.key != "" && IndexOf(a.receipt) in c.byKey {
        EntryIsOwn(s.log, a.receipt, c);
      }
      InsertRefinesChain(s, a.base, a.receipt, c);
    }
  }

  lemma ReplayPush(log: seq<Receipt>, r: Receipt)
    ensures Replay(log + [r]) == Appended(Replay(log), RequestOf(r), r.body.id, r.body.createdAt).0
  {
    assert (log + [r])[..|log|] == log;
  }

  lemma {:induction false} RunRefinesChain(s: Store, run: seq<Action>)
    requires Inv(s) && Represents(s.log, Replay(s.log)) && Executable(s, run) && OneOrgPerIndex(After(s, run).log)
    ensures Represents(After(s, run).log, Replay(After(s, run).log))
    decreases |run|
  {
    if run != [] {
      StepKeepsInv(s, run[0]);
      RunKeepsInv(Apply(s, run[0]), run[1..]);
      StepRepresents(s, run[0], Replay(s.log));
      if run[0].Insert? {
        ReplayPush(s.log, run[0].receipt);
      }
      RunRefinesChain(Apply(s, run[0]), run[1..]);
    }
  }

  lemma AppendedOnce(c: State, request: Request, id: string, at: int, org: string)
    ensures |ChainOf(Appended(c, request, id, at).0, org)| <= |ChainOf(c, org)| + (if org == request.org then 1 else 0)
  {
  }

  /** The locked chain never holds more than it was asked for. */
  lemma {:induction false} ReplayBounds(log: seq<Receipt>, org: string)
    ensures |ChainOf(Replay(log), org)| <= |OrgLog(log, org)|
  {
    if log != [] {
      var last, before := log[|log| - 1], log[..|log| - 1];
      ReplayBounds(before, org);
      AppendedOnce(Replay(before), RequestOf(last), last.body.id, last.body.createdAt, org);
    }
  }

  lemma {:induction false} ReplayIndexSound(log: seq<Receipt>)
    ensures IndexSound(Replay(log))
  {
    if log != [] {
      var last, before := log[|log| - 1], log[..|log| - 1];
      ReplayIndexSound(before);
      AppendKeepsIndex(Replay(before), RequestOf(last), last.body.id, last.body.createdAt);
    }
  }

  lemma AppendKeepsIndex(s: State, request: Request, id: string, at: int)
    requires IndexSound(s)
    ensures IndexSound(Appended(s, request, id, at).0)
  {
    var t := Appended(s, request, id, at).0;
    forall index | index in t.byKey
      ensures var r := t.byKey[index];
        r.body.org in t.receipts && r in t.receipts[r.body.org] && r.body.key != ""
          && index == Composite(r.body.org, r.body.key) {
      assert index in s.byKey || index == Composite(request.org, request.key);
    }
  }

  /** Every key the locked chain was asked for is in its index. */
  lemma {:induction false} ReplayIndexes(log: seq<Receipt>)
    ensures forall r :: r in log && r.body.key != "" ==> IndexOf(r) in Replay(log).byKey
  {
    if log != [] {
      assert log == log[..|log| - 1] + [log[|log| - 1]];
      ReplayIndexes(log[..|log| - 1]);
    }
  }

  /** The last receipt of a represented log was new to the locked chain. */
  lemma LastWasNew(before: seq<Receipt>, last: Receipt)
    requires Represents(before + [last], Replay(before + [last])) && last.body.key != ""
    ensures IndexOf(last) !in Replay(before).byKey
  {
    var log := before + [last];
    assert log[..|log| - 1] == before;
    OrgLogPush(before, last, last.body.org);
    ReplayBounds(before, last.body.org);
    assert ChainOf(Replay(log), last.body.org) == OrgLog(log, last.body.org);
  }

  lemma RepresentedBefore(before: seq<Receipt>, last: Receipt)
    requires Represents(before + [last], Replay(before + [last]))
    ensures Represents(before, Replay(before))
  {
    var log, c := before + [last], Replay(before);
    assert log[..|log| - 1] == before;
    if last.body.key != "" {
      LastWasNew(before, last);
    }
    ReplayBounds(before, last.body.org);
    ReplayIndexes(before);
    ReplayIndexSound(before);
    forall org ensures ChainOf(c, org) == OrgLog(before, org) {
      OrgLogPush(before, last, org);
      assert ChainOf(Replay(log), org) == OrgLog(log, org);
      if org == last.body.org {
        var shared := OrgLog(before, org);
        assert (shared + [last])[..|shared|] == shared;
      }
    }
  }

  /** The locked chain drops a receipt as soon as its index entry belongs to somebody else, and then it
      never catches up with the shared log. */
  lemma {:induction false} RepresentedIsSeparate(log: seq<Receipt>)
    requires Represents(log, Replay(log))
    ensures OneOrgPerIndex(log)
  {
    if log != [] {
      var last, before := log[|log| - 1], log[..|log| - 1];
      assert log == before + [last];
      RepresentedBefore(before, last);
      RepresentedIsSeparate(before);
      ReplayIndexes(before);
      if last.body.key != "" {
        LastWasNew(before, last);
      }
    }
  }

  /** Refinement over whole runs: the shared store looks like one locked chain that was asked for its
      receipts one after the other, in the order of their inserts, exactly when no entry of the locked
      index belongs to two organizations. A receipt found under a key is then the locked chain's answer. */
  lemma EveryRunRefinesChain(run: seq<Action>)
    requires Executable(EMPTY, run)
    ensures var log := After(EMPTY, run).log;
      && (Represents(log, Replay(log)) <==> OneOrgPerIndex(log))
      && (OneOrgPerIndex(log) ==> forall r: Receipt, request: Request, id: string, at: int ::
            r in log && request.org == r.body.org && request.key == r.body.key && request.key != "" ==>
              Appended(Replay(log), request, id, at) == (Replay(log), r))
  {
    var t := After(EMPTY, run);
    EveryRunIsSafe(run);
    if OneOrgPerIndex(t.log) {
      assert forall org :: OrgInv(EMPTY.log, EMPTY.heads, org);
      RunRefinesChain(EMPTY, run);
      forall r: Receipt, request: Request, id: string, at: int |
        r in t.log && request.org == r.body.org && request.key == r.body.key && request.key != ""
        ensures Appended(Replay(t.log), request, id, at) == (Replay(t.log), r) {
        KnownKeyIsAnswered(t, r);
      }
    }
    if Represents(t.log, Replay(t.log)) {
      RepresentedIsSeparate(t.log);
    }
  }

  lemma KnownKeyIsAnswered(s: Store, r: Receipt)
    requires Inv(s) && Represents(s.log, Replay(s.log)) && OneOrgPerIndex(s.log)
    requires r in s.log && r.body.key != ""
    ensures IndexOf(r) in Replay(s.log).byKey && Replay(s.log).byKey[IndexOf(r)] == r
  {
    var c := Replay(s.log);
    var other := c.byKey[IndexOf(r)];
    assert other in ChainOf(c, other.body.org);
    OrgLogMembers(s.log, other.body.org);
    assert IndexOf(other)[|r.body.org| + 1..] == other.body.key && IndexOf(r)[|r.body.org| + 1..] == r.body.key;
    OneReceiptPerKey(s.log, r);
    assert Clash(other, r);
  }

  // ---------------------------------------------------------------- facts the appender reads off

  /** What any reader finds behind a head it once read always continues that head. */
  lemma SeenThenFollows(s: Store, head: Head, r: Receipt)
    requires Inv(s) && head in s.seen
    requires r in s.log && r.body.org == head.org && r.body.sequence == head.sequence + 1
    ensures Follows(head, r)
  {
    var chain := OrgLog(s.log, head.org);
    assert OrgInv(s.log, s.heads, head.org) && ReadInv(s, head);
    OrgLogMembers(s.log, head.org);
    assert r in chain;
    var i :| 0 <= i < |chain| && chain[i] == r;
    assert LinkAt(chain, i);
  }

  /** At most one receipt carries an identifier, and at most one an organization's idempotency key. */
  lemma OneReceiptPerKey(log: seq<Receipt>, r: Receipt)
    requires NoClash(log) && r in log
    ensures forall other :: other in log && Clash(other, r) ==> other == r
  {
    var i :| 0 <= i < |log| && log[i] == r;
    forall other | other in log && Clash(other, r) ensures other == r {
      var j :| 0 <= j < |log| && log[j] == other;
    }
  }

  /** Two calls with one idempotency key return the same receipt, however far apart their answers are. */
  lemma SameKeySameReceipt(s: Store, t: Store, r1: Receipt, r2: Receipt)
    requires Inv(s) && Reaches(s, t)
    requires r1 in s.log && r2 in t.log
    requires r1.body.org == r2.body.org && r1.body.key == r2.body.key && r1.body.key != ""
    ensures r1 == r2
  {
    ReachKeeps(s, t);
    assert r1 in t.log;
    OneReceiptPerKey(t.log, r1);
  }

  /** FindOne: the first document that matches. */
  method Find(log: seq<Receipt>, matches: Receipt -> bool) returns (found: Option<Receipt>)
    ensures found.Some? ==> found.value in log && matches(found.value)
    ensures found.None? ==> forall r :: r in log ==> !matches(r)
  {
    for i := 0 to |log|
      invariant forall r :: r in log[..i] ==> !matches(r)
    {
      if matches(log[i]) {
        return Some(log[i]);
      }
      assert log[..i + 1] == log[..i] + [log[i]];
    }
    assert log[..|log|] == log;
    return None;
  }

  // ---------------------------------------------------------------- progress

  function AppendRun(base: Head, r: Receipt): seq<Action> {
    [ReadHead(base.org), Insert(base, r), Advance(base, r)]
  }

  /** Neither the identifier nor the organization's idempotency key has been used. */
  ghost predicate Unused(log: seq<Receipt>, id: string, org: string, key: string) {
    forall r :: r in log ==> r.body.id != id && (r.body.org != org || r.body.key != key || key == "")
  }

  /** With the head on the last receipt, nothing stands in the way of an unused receipt. */
  lemma NothingInTheWay(s: Store, base: Head, r: Receipt)
    requires Inv(s) && base.org == r.body.org && base.sequence == |OrgLog(s.log, r.body.org)|
    requires Follows(base, r) && Unused(s.log, r.body.id, r.body.org, r.body.key)
    ensures !Duplicate(s.log, r)
  {
    var chain := OrgLog(s.log, base.org);
    assert OrgInv(s.log, s.heads, base.org);
    forall other | other in s.log ensures !Clash(other, r) {
      if other.body.org == r.body.org {
        OrgLogMembers(s.log, base.org);
        assert other in chain;
        var i :| 0 <= i < |chain| && chain[i] == other;
        assert LinkAt(chain, i);
      }
    }
  }

  /** With the head on the last receipt, read, insert and compare-and-set succeed in that order. */
  lemma AppendRunExecutes(s: Store, base: Head, r: Receipt)
    requires Inv(s) && base == HeadOf(s.heads, r.body.org) && base.sequence == |OrgLog(s.log, r.body.org)|
    requires Follows(base, r) && Sealed(r) && Unused(s.log, r.body.id, r.body.org, r.body.key)
    ensures Executable(s, AppendRun(base, r))
    ensures After(s, AppendRun(base, r)).log == s.log + [r]
    ensures HeadOf(After(s, AppendRun(base, r)).heads, r.body.org) == Advanced(base, r)
  {
    var s1 := Apply(s, ReadHead(base.org));
    assert OrgInv(s.log, s.heads, base.org);
    NothingInTheWay(s, base, r);
    var s2 := Apply(s1, Insert(base, r));
    var run := AppendRun(base, r);
    assert run[1..][1..] == [Advance(base, r)] && run[1..][1..][1..] == [];
    assert Enabled(s1, run[1]) && Enabled(s2, run[2]);
    assert Executable(Apply(s2, run[2]), []) && Executable(s2, [run[2]]) && Executable(s1, run[1..]);
    assert After(s1, run[1..]) == After(s2, [run[2]]) == Apply(s2, run[2]);
  }

  /** A run of at most two actions puts the head on the last receipt: nothing to do, or one adoption. */
  lemma RepairExecutes(s: Store, org: string) returns (repair: seq<Action>)
    requires Inv(s)
    ensures Executable(s, repair) && |repair| <= 2
    ensures After(s, repair).log == s.log
    ensures HeadOf(After(s, repair).heads, org).sequence == |OrgLog(s.log, org)|
  {
    var chain, head := OrgLog(s.log, org), HeadOf(s.heads, org);
    assert OrgInv(s.log, s.heads, org);
    if head.sequence == |chain| {
      repair := [];
    } else {
      var orphan := chain[head.sequence];
      assert LinkAt(chain, head.sequence);
      OrgLogMembers(s.log, org);
      assert orphan in chain;
      repair := [ReadHead(org), Advance(head, orphan)];
      var s1 := Apply(s, repair[0]);
      assert repair[1..] == [repair[1]] && repair[1..][1..] == [];
      assert Enabled(s1, repair[1]);
      assert Executable(Apply(s1, repair[1]), []) && Executable(s1, repair[1..]);
      assert After(s1, repair[1..]) == Apply(s1, repair[1]);
    }
  }

  /** Whatever crashed where, an append with a fresh identifier and an unused key can go through in at
      most five calls, ending with its receipt at the tip and the head on it. */
  lemma NeverStuck(s: Store, request: Request, id: string, at: int) returns (run: seq<Action>)
    requires Inv(s) && Unused(s.log, id, request.org, request.key)
    ensures Executable(s, run) && |run| <= 5
    ensures var chain := OrgLog(s.log, request.org);
      var receipt := Seal(request, id, |chain| + 1, HashAt(chain, |chain|), at);
      && After(s, run).log == s.log + [receipt]
      && HeadOf(After(s, run).heads, request.org) == Head(request.org, |chain| + 1, receipt.hash, |chain| + 1)
  {
    var chain := OrgLog(s.log, request.org);
    var receipt := Seal(request, id, |chain| + 1, HashAt(chain, |chain|), at);
    var repair := RepairExecutes(s, request.org);
    RunKeepsInv(s, repair);
    var t := After(s, repair);
    assert OrgInv(t.log, t.heads, request.org);
    var head := HeadOf(t.heads, request.org);
    SealIsSealed(request, id, |chain| + 1, HashAt(chain, |chain|), at);
    AppendRunExecutes(t, head, receipt);
    RunConcat(s, repair, AppendRun(head, receipt));
    run := repair + AppendRun(head, receipt);
  }

  // ---------------------------------------------------------------- the appender

  /** The receipt records exactly what was asked, under a valid hash. */
  ghost predicate Records(r: Receipt, request: Request) {
    && r.body.org == request.org && r.body.event == request.event && r.body.key == request.key
    && r.body.commitment == Commit(request.event.epoch, request.content) && r.hash == Sha(r.body)
  }

  /** The head names the last receipt. */
  ghost predicate AtTip(s: Store, org: string) {
    HeadOf(s.heads, org).sequence == |OrgLog(s.log, org)|
  }

  /** The head is one receipt behind. */
  ghost predicate AtTipAfter(s: Store, head: Head) {
    |OrgLog(s.log, head.org)| == head.sequence + 1
  }

  /** The organization already has a receipt under this key. */
  predicate Known(log: seq<Receipt>, request: Request) {
    request.key != "" && exists r :: r in log && r.body.org == request.org && r.body.key == request.key
  }

  /** Behind a current head there is a receipt exactly when the head is not at the tip. */
  lemma FoundMeansOrphan(s: Store, head: Head)
    requires Inv(s) && head == HeadOf(s.heads, head.org)
    ensures (exists r :: r in s.log && r.body.org == head.org && r.body.sequence == head.sequence + 1) <==>
      !AtTip(s, head.org)
    ensures !AtTip(s, head.org) ==> |OrgLog(s.log, head.org)| == head.sequence + 1
    ensures HeadMatches(s.heads, head)
  {
    var chain := OrgLog(s.log, head.org);
    assert OrgInv(s.log, s.heads, head.org);
    OrgLogMembers(s.log, head.org);
    if |chain| == head.sequence + 1 {
      assert LinkAt(chain, head.sequence) && chain[head.sequence] in chain;
    }
    if r :| r in s.log && r.body.org == head.org && r.body.sequence == head.sequence + 1 {
      assert r in chain;
      var i :| 0 <= i < |chain| && chain[i] == r;
      assert LinkAt(chain, i);
    }
  }

  lemma NthReceipt(s: Store, org: string, n: nat)
    requires Inv(s) && n < |OrgLog(s.log, org)|
    ensures var r := OrgLog(s.log, org)[n]; r in s.log && r.body.org == org && r.body.sequence == n + 1
  {
    var chain := OrgLog(s.log, org);
    assert OrgInv(s.log, s.heads, org);
    OrgLogMembers(s.log, org);
    assert LinkAt(chain, n) && chain[n] in chain;
  }

  /** A head that was read, behind which there is no receipt, stands for the whole chain. */
  lemma NothingBehind(s: Store, head: Head)
    requires Inv(s) && head in s.seen
    requires forall r :: r in s.log ==> r.body.org != head.org || r.body.sequence != head.sequence + 1
    ensures |OrgLog(s.log, head.org)| <= head.sequence
  {
    if |OrgLog(s.log, head.org)| > head.sequence {
      NthReceipt(s, head.org, head.sequence);
    }
  }

  /** A compare-and-set of a head that was read fails only if the head has moved on. */
  lemma MismatchMeansMoved(s: Store, head: Head)
    requires Inv(s) && head in s.seen && !HeadMatches(s.heads, head)
    ensures head.sequence < HeadOf(s.heads, head.org).sequence
  {
    assert OrgInv(s.log, s.heads, head.org) && ReadInv(s, head);
  }

  lemma ChainsOnlyGrow(s: Store, t: Store, org: string)
    requires Inv(s) && LeadsTo(s, t)
    ensures |OrgLog(s.log, org)| <= |OrgLog(t.log, org)|
    ensures HeadOf(s.heads, org).sequence <= HeadOf(t.heads, org).sequence
  {
    if OrgLog(s.log, org) != [] {
      ReceiptsStayPut(s, t, org, |OrgLog(s.log, org)| - 1);
    }
  }

  /** Between the two stores a receipt of the organization was inserted or its head moved. */
  ghost predicate Progressed(s: Store, t: Store, org: string) {
    || |OrgLog(s.log, org)| < |OrgLog(t.log, org)|
    || HeadOf(s.heads, org).sequence < HeadOf(t.heads, org).sequence
  }

  /** A moment of a call: the store, and how many heads the call has moved so far. */
  datatype Moment = Moment(store: Store, advances: nat)

  /** Why an attempt came to nothing: somebody got ahead in the organization's chain, and unless that was the
      attempt itself, by adopting an orphan, there was still no receipt under its key. */
  ghost predicate Beaten(before: Moment, after: Moment, request: Request) {
    && LeadsTo(before.store, after.store) && Progressed(before.store, after.store, request.org)
    && before.advances <= after.advances <= before.advances + 1
    && (after.advances == before.advances ==> !Known(after.store.log, request))
  }

  class MongoChain {
    var log: seq<Receipt>
    var heads: map<string, Head>
    ghost var seen: set<Head>
    /** The receipts this appender has inserted itself. */
    ghost var own: seq<Receipt>
    /** How many heads it has moved itself. */
    ghost var advances: nat

    ghost function Snapshot(): Store
      reads this
    {
      Store(log, heads, seen)
    }

    /** Whatever other appenders do between two calls of this one: any run at all, or nothing when quiet. */
    method Others(ghost quiet: bool)
      requires Inv(Snapshot())
      modifies this
      ensures quiet ==> Snapshot() == old(Snapshot())
      ensures LeadsTo(old(Snapshot()), Snapshot()) && own == old(own) && advances == old(advances)
    {
      LeadsNowhere(Snapshot());
    }

    method FindByKey(org: string, key: string) returns (found: Option<Receipt>)
      ensures found.Some? ==> found.value in log && found.value.body.org == org && found.value.body.key == key
      ensures found.None? ==> forall r :: r in log ==> r.body.org != org || r.body.key != key
    {
      found := Find(log, (r: Receipt) => r.body.org == org && r.body.key == key);
    }

    method FindBySequence(org: string, sequence: nat) returns (found: Option<Receipt>)
      ensures found.Some? ==> found.value in log && found.value.body.org == org && found.value.body.sequence == sequence
      ensures found.None? ==> forall r :: r in log ==> r.body.org != org || r.body.sequence != sequence
    {
      found := Find(log, (r: Receipt) => r.body.org == org && r.body.sequence == sequence);
    }

    method FindById(org: string, id: string) returns (found: Option<Receipt>)
      ensures found.Some? ==> found.value in log && found.value.body.org == org && found.value.body.id == id
      ensures found.None? ==> forall r :: r in log ==> r.body.org != org || r.body.id != id
    {
      found := Find(log, (r: Receipt) => r.body.org == org && r.body.id == id);
    }

    method ReadHeadOf(org: string) returns (head: Head)
      requires Inv(Snapshot())
      modifies this`seen
      ensures Snapshot() == Apply(old(Snapshot()), ReadHead(org))
      ensures LeadsTo(old(Snapshot()), Snapshot()) && head == HeadOf(heads, org) && head in seen && head.org == org
    {
      LeadsByStep(Snapshot(), ReadHead(org));
      assert OrgInv(log, heads, org);
      head := HeadOf(heads, org);
      seen := seen + {head};
    }

    /** InsertOne: refused exactly when a unique index already holds one of the receipt's keys. */
    method InsertOne(ghost base: Head, r: Receipt) returns (inserted: bool)
      requires Inv(Snapshot()) && base in seen && Follows(base, r) && Sealed(r)
      modifies this`log, this`own
      ensures inserted <==> !Duplicate(old(log), r)
      ensures Snapshot() == if inserted then Apply(old(Snapshot()), Insert(base, r)) else old(Snapshot())
      ensures own == if inserted then old(own) + [r] else old(own)
      ensures LeadsTo(old(Snapshot()), Snapshot())
    {
      var clash := Find(log, (other: Receipt) => Clash(other, r));
      inserted := clash.None?;
      if inserted {
        LeadsByStep(Snapshot(), Insert(base, r));
        log, own := log + [r], own + [r];
      } else {
        LeadsNowhere(Snapshot());
      }
    }

    /** UpdateOne with upsert at version 0: true when a document was matched or created, false for no
        match and for a duplicate key alike. */
    method AdvanceHead(base: Head, r: Receipt) returns (advanced: bool)
      requires Inv(Snapshot()) && base in seen && Follows(base, r) && r in log
      modifies this`heads, this`advances
      ensures advances == old(advances) + (if advanced then 1 else 0)
      ensures advanced <==> HeadMatches(old(heads), base)
      ensures Snapshot() == if advanced then Apply(old(Snapshot()), Advance(base, r)) else old(Snapshot())
      ensures LeadsTo(old(Snapshot()), Snapshot())
    {
      advanced := HeadMatches(heads, base);
      if advanced {
        LeadsByStep(Snapshot(), Advance(base, r));
        heads, advances := heads[base.org := Advanced(base, r)], advances + 1;
      } else {
        LeadsNowhere(Snapshot());
      }
    }

    /** Adopts an orphan behind the head that was read. The invalid-orphan error cannot occur. Undisturbed,
        with the current head, it adopts exactly when there is an orphan. */
    method RecoverNext(head: Head, ghost quiet: bool) returns (r: Result<bool, AppendError>)
      requires Inv(Snapshot()) && head in seen
      modifies this
      ensures LeadsTo(old(Snapshot()), Snapshot()) && own == old(own) && r.Ok?
      ensures advances == old(advances) + (if r.value then 1 else 0)
      ensures if r.value then head.sequence < HeadOf(heads, head.org).sequence
        else |OrgLog(old(log), head.org)| <= head.sequence || head.sequence < HeadOf(heads, head.org).sequence
      ensures quiet && head == HeadOf(old(heads), head.org) ==>
        log == old(log) && (r.value <==> !AtTip(old(Snapshot()), head.org))
        && AtTip(Snapshot(), head.org) && (!r.value ==> heads == old(heads))
    {
      if head == HeadOf(heads, head.org) {
        FoundMeansOrphan(Snapshot(), head);
      }
      var found := FindBySequence(head.org, head.sequence + 1);
      if found.None? {
        LeadsNowhere(Snapshot());
        NothingBehind(Snapshot(), head);
        return Ok(false);
      }
      var receipt := found.value;
      SeenThenFollows(Snapshot(), head, receipt);
      if receipt.body.previous != head.hash || Sha(receipt.body) != receipt.hash {
        return Err(InvalidOrphan(receipt.body.sequence));
      }
      Others(quiet);
      ghost var t := Snapshot();
      var advanced := AdvanceHead(head, receipt);
      LeadsOn(old(Snapshot()), t, Snapshot());
      if !advanced {
        MismatchMeansMoved(Snapshot(), head);
      }
      return Ok(advanced);
    }

    /** The rest of an attempt once its receipt is stored: whatever the compare-and-set of the head and
        the later reads say, the call answers with that same receipt, and the head has passed it. */
    method Publish(head: Head, receipt: Receipt, ghost quiet: bool) returns (published: Receipt)
      requires Inv(Snapshot()) && head in seen && Follows(head, receipt) && receipt in log
      modifies this
      ensures LeadsTo(old(Snapshot()), Snapshot()) && own == old(own)
      ensures published == receipt && receipt in log
      ensures receipt.body.sequence <= HeadOf(heads, head.org).sequence
      ensures quiet ==> log == old(log)
      ensures quiet && HeadMatches(old(heads), head) && AtTipAfter(old(Snapshot()), head) ==>
        AtTip(Snapshot(), head.org)
    {
      Others(quiet);
      ghost var t := Snapshot();
      var advanced := AdvanceHead(head, receipt);
      LeadsOn(old(Snapshot()), t, Snapshot());
      if advanced {
        return receipt;
      }
      t := Snapshot();
      MismatchMeansMoved(t, head);
      published := Confirm(receipt, quiet);
      ChainsOnlyGrow(t, Snapshot(), head.org);
      LeadsOn(old(Snapshot()), t, Snapshot());
    }

    /** What a call does whose compare-and-set of the head did not match: it looks at the head, and then
        for its receipt. */
    method Confirm(receipt: Receipt, ghost quiet: bool) returns (published: Receipt)
      requires Inv(Snapshot()) && receipt in log
      modifies this
      ensures LeadsTo(old(Snapshot()), Snapshot()) && own == old(own)
      ensures published == receipt && receipt in log
      ensures quiet ==> log == old(log) && heads == old(heads)
    {
      Others(quiet);
      ghost var t := Snapshot();
      var current := ReadHeadOf(receipt.body.org);
      LeadsOn(old(Snapshot()), t, Snapshot());
      if current.sequence == receipt.body.sequence && current.hash == receipt.hash {
        return receipt;
      }
      t := Snapshot();
      Others(quiet);
      LeadsOn(old(Snapshot()), t, Snapshot());
      // Receipts are never deleted, so this read always finds the call's own receipt.
      var persisted := FindById(receipt.body.org, receipt.body.id);
      OneReceiptPerKey(log, receipt);
      return persisted.value;
    }

    /** Verification lists the receipts and then reads the head, with anything in between. It never blames a
        receipt. It reports a mismatch exactly when an orphan was there all along, or when the head has moved
        past what was listed: receipts were appended in between and nothing need be wrong. */
    method Verify(org: string, ghost quiet: bool) returns (verdict: Verdict, ghost listed: Store, ghost read: Store)
      requires Inv(Snapshot())
      modifies this
      ensures LeadsTo(old(Snapshot()), listed) && LeadsTo(listed, read) && LeadsTo(old(Snapshot()), Snapshot())
      ensures log == read.log && heads == read.heads && own == old(own)
      ensures verdict == if MatchesHead(OrgLog(listed.log, org), HeadOf(read.heads, org)) then Intact else HeadMismatch
      ensures verdict.Intact? <==> HeadOf(read.heads, org).sequence == |OrgLog(listed.log, org)|
      ensures verdict.HeadMismatch? <==>
        || (HeadOf(read.heads, org).sequence + 1 == |OrgLog(listed.log, org)| && !AtTip(listed, org))
        || |OrgLog(listed.log, org)| < HeadOf(read.heads, org).sequence <= |OrgLog(read.log, org)|
      ensures quiet ==> (verdict.Intact? <==> AtTip(old(Snapshot()), org))
    {
      Others(quiet);
      listed := Snapshot();
      var receipts := OrgLog(log, org);
      var sorted;
      verdict, sorted := JudgeLinks(receipts);
      Others(quiet);
      read := Snapshot();
      LeadsOn(old(Snapshot()), listed, read);
      TwoReads(listed, read, org);
      assert Arranges(receipts, receipts);
      OnlyArrangement(receipts, sorted);
      if !verdict.Intact? {
        return;
      }
      var head := ReadHeadOf(org);
      LeadsOn(old(Snapshot()), read, Snapshot());
      verdict := if MatchesHead(sorted, head) then Intact else HeadMismatch;
    }

    /** The source of fresh receipt identifiers. */
    method FreshId() returns (id: string)
      ensures forall r :: r in log ==> r.body.id != id
    {
      id := "";
      for i := 0 to |log|
        invariant forall r :: r in log[..i] ==> |r.body.id| < |id|
      {
        assert log[..i + 1] == log[..i] + [log[i]];
        id := if |id| <= |log[i].body.id| then log[i].body.id + "+" else id;
      }
      assert log[..|log|] == log;
    }

    /** What one call may have done to its own inserts: nothing unless it answers, and then at most the one
        receipt it answers with. An answer it did not insert stands under the requested key. */
    ghost predicate Answers(request: Request, answer: Option<Receipt>, before: seq<Receipt>)
      reads this
    {
      if answer.None? then own == before
      else
        && answer.value in log && answer.value.body.org == request.org
        && (|| (own == before && answer.value.body.key == request.key && request.key != "")
            || (own == before + [answer.value] && Records(answer.value, request)
                && answer.value.body.sequence <= HeadOf(heads, request.org).sequence))
    }

    ghost function Now(): Moment
      reads this
    {
      Moment(Snapshot(), advances)
    }

    /** One attempt: adopts an orphan, or seals and inserts a receipt and publishes it. Undisturbed, with an
        unused key, it appends when the head is at the tip and otherwise brings it there. */
    method Attempt(request: Request, ghost quiet: bool) returns (answer: Option<Receipt>)
      requires Inv(Snapshot()) && Rejection(request).None?
      modifies this
      ensures LeadsTo(old(Snapshot()), Snapshot()) && Answers(request, answer, old(own))
      ensures answer.None? ==> Beaten(old(Now()), Now(), request)
      ensures quiet && !Known(old(log), request) ==>
        && AtTip(Snapshot(), request.org)
        && (if AtTip(old(Snapshot()), request.org)
            then answer.Some? && own != old(own) && log == old(log) + [answer.value]
            else answer.None? && log == old(log))
    {
      var head, recovered := ReadAndRecover(request.org, quiet);
      if recovered {
        return None;
      }
      ghost var t := Snapshot();
      Others(quiet);
      LeadsOn(old(Snapshot()), t, Snapshot());
      t := Snapshot();
      answer := SealAndInsert(request, head, quiet);
      LeadsOn(old(Snapshot()), t, Snapshot());
      ChainsOnlyGrow(t, Snapshot(), request.org);
    }

    /** Reads the head and adopts an orphan behind it. */
    method ReadAndRecover(org: string, ghost quiet: bool) returns (head: Head, recovered: bool)
      requires Inv(Snapshot())
      modifies this
      ensures LeadsTo(old(Snapshot()), Snapshot()) && own == old(own) && head in seen && head.org == org
      ensures quiet ==> log == old(log) && AtTip(Snapshot(), org) && (recovered <==> !AtTip(old(Snapshot()), org))
      ensures quiet && !recovered ==> heads == old(heads) && head == HeadOf(heads, org)
      ensures advances == old(advances) + (if recovered then 1 else 0)
      ensures if recovered then HeadOf(old(heads), org).sequence < HeadOf(heads, org).sequence
        else |OrgLog(old(log), org)| <= head.sequence || HeadOf(old(heads), org).sequence < HeadOf(heads, org).sequence
    {
      Others(quiet);
      ghost var t := Snapshot();
      head := ReadHeadOf(org);
      LeadsOn(old(Snapshot()), t, Snapshot());
      t := Snapshot();
      Others(quiet);
      LeadsOn(old(Snapshot()), t, Snapshot());
      t := Snapshot();
      ChainsOnlyGrow(old(Snapshot()), t, org);
      var r := RecoverNext(head, quiet);
      LeadsOn(old(Snapshot()), t, Snapshot());
      recovered := r.value;
    }

    /** Seals a receipt on the head that was read, under a fresh identifier, and tries to insert it. */
    method SealOn(request: Request, head: Head) returns (receipt: Receipt, stored: bool)
      requires Inv(Snapshot()) && Rejection(request).None? && head in seen && head.org == request.org
      modifies this`log, this`own
      ensures LeadsTo(old(Snapshot()), Snapshot()) && Follows(head, receipt) && Records(receipt, request)
      ensures log == if stored then old(log) + [receipt] else old(log)
      ensures own == if stored then old(own) + [receipt] else old(own)
      ensures if Known(old(log), request) then !stored else stored || head.sequence < |OrgLog(log, request.org)|
      ensures !Known(old(log), request) && head == HeadOf(heads, head.org) && AtTip(old(Snapshot()), head.org) ==>
        stored && AtTipAfter(Snapshot(), head) && HeadMatches(heads, head)
    {
      var id := FreshId();
      var at: int := *;
      receipt := Seal(request, id, head.sequence + 1, head.hash, at);
      SealIsSealed(request, id, head.sequence + 1, head.hash, at);
      assert ReadInv(Snapshot(), head);
      if head.sequence == |OrgLog(log, request.org)| && !Known(log, request) {
        NothingInTheWay(Snapshot(), head, receipt);
      }
      if head == HeadOf(heads, head.org) {
        FoundMeansOrphan(Snapshot(), head);
      }
      stored := InsertOne(head, receipt);
      OrgLogPush(old(log), receipt, request.org);
    }

    /** Seals a receipt on the head that was read, inserts it, and publishes it; a duplicate answers with
        the receipt of the key, if that was it. It has no answer only if another receipt took the place behind
        the head, and none has the key. */
    method SealAndInsert(request: Request, head: Head, ghost quiet: bool) returns (answer: Option<Receipt>)
      requires Inv(Snapshot()) && Rejection(request).None? && head in seen && head.org == request.org
      modifies this
      ensures LeadsTo(old(Snapshot()), Snapshot()) && Answers(request, answer, old(own))
      ensures Known(old(log), request) ==> answer.Some?
      ensures answer.None? ==>
        !Known(log, request) && head.sequence < |OrgLog(log, request.org)| && advances == old(advances)
      ensures quiet && !Known(old(log), request) && head == HeadOf(old(heads), head.org)
              && AtTip(old(Snapshot()), head.org) ==>
        answer.Some? && own != old(own) && log == old(log) + [answer.value] && AtTip(Snapshot(), head.org)
    {
      var receipt, stored := SealOn(request, head);
      ghost var t := Snapshot();
      if !stored {
        answer := AnsweredMeanwhile(request, quiet);
        LeadsOn(old(Snapshot()), t, Snapshot());
        return;
      }
      answer := PublishOwn(request, head, receipt, quiet);
      LeadsOn(old(Snapshot()), t, Snapshot());
    }

    /** The rest of the attempt that has stored its receipt. */
    method PublishOwn(request: Request, head: Head, receipt: Receipt, ghost quiet: bool)
      returns (answer: Option<Receipt>)
      requires Inv(Snapshot()) && head in seen && Follows(head, receipt) && receipt in log
      requires own != [] && own[|own| - 1] == receipt && Records(receipt, request)
      modifies this
      ensures LeadsTo(old(Snapshot()), Snapshot()) && own == old(own)
      ensures answer == Some(receipt) && Answers(request, answer, own[..|own| - 1])
      ensures quiet ==> log == old(log)
      ensures quiet && HeadMatches(old(heads), head) && AtTipAfter(old(Snapshot()), head) ==>
        AtTip(Snapshot(), head.org)
    {
      var published := Publish(head, receipt, quiet);
      return Some(published);
    }

    /** The insert was a duplicate: the look for a receipt under the same key, if there is one. */
    method AnsweredMeanwhile(request: Request, ghost quiet: bool) returns (answer: Option<Receipt>)
      requires Inv(Snapshot())
      modifies this
      ensures LeadsTo(old(Snapshot()), Snapshot()) && advances == old(advances)
      ensures Answers(request, answer, old(own)) && own == old(own)
      ensures |OrgLog(old(log), request.org)| <= |OrgLog(log, request.org)|
      ensures answer.None? ==> !Known(old(log), request) && !Known(log, request)
    {
      if request.key == "" {
        LeadsNowhere(Snapshot());
        return None;
      }
      Others(quiet);
      ChainsOnlyGrow(old(Snapshot()), Snapshot(), request.org);
      answer := FindByKey(request.org, request.key);
    }

    /** A call inserts at most one receipt: none when it fails, and otherwise only the one it answers with, which the
        head has then reached.
        It reports contention only after 32 attempts, `history` being the moments between them, in each of which
        somebody got ahead of it and nobody else answered its key. Undisturbed, a valid call answers a known
        key with its receipt, and otherwise appends one and leaves the head on it. */
    method Append(request: Request, ghost quiet: bool)
      returns (r: Result<Receipt, AppendError>, ghost history: seq<Moment>)
      requires Inv(Snapshot())
      modifies this
      ensures LeadsTo(old(Snapshot()), Snapshot())
      ensures Answers(request, if r.Ok? then Some(r.value) else None, old(own))
      ensures Rejection(request).Some? ==> r == Err(Rejection(request).value) && Snapshot() == old(Snapshot())
      ensures Rejection(request).None? && r.Err? ==>
        && r.error == Contention && |history| == 33 && history[0] == old(Now()) && history[32] == Now()
        && forall i :: 0 <= i < 32 ==> Beaten(history[i], history[i + 1], request)
      ensures Known(old(log), request) ==> Snapshot() == old(Snapshot()) && (Rejection(request).None? ==> r.Ok?)
      ensures quiet && Rejection(request).None? && !Known(old(log), request) ==>
        r.Ok? && own != old(own) && log == old(log) + [r.value] && AtTip(Snapshot(), request.org)
    {
      LeadsNowhere(Snapshot());
      history := [Now()];
      var rejection := Rejection(request);
      if rejection.Some? {
        r := Err(rejection.value);
        return;
      }
      if request.key != "" {
        var existing := FindByKey(request.org, request.key);
        if existing.Some? {
          r := Ok(existing.value);
          return;
        }
      }
      for attempt := 0 to 32
        invariant LeadsTo(old(Snapshot()), Snapshot()) && own == old(own)
        invariant |history| == attempt + 1 && history[0] == old(Now()) && history[attempt] == Now()
        invariant forall i :: 0 <= i < attempt ==> Beaten(history[i], history[i + 1], request)
        invariant quiet ==> attempt <= 1 && log == old(log) && (attempt == 1 ==> AtTip(Snapshot(), request.org))
      {
        ghost var t := Snapshot();
        var answer := Attempt(request, quiet);
        LeadsOn(old(Snapshot()), t, Snapshot());
        if answer.Some? {
          r := Ok(answer.value);
          return;
        }
        history := history + [Now()];
      }
      r := Err(Contention);
    }
  }
}
