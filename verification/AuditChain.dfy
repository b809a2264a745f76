/** Receipts, their hashes and the locked in-memory chain (core/audit/audit.go).

    SHA-256 over the canonical JSON of a receipt is the constructor `Sha`: equal digests come from
    equal receipts, and a digest never equals the empty string (`NoDigest`). The HMAC commitment is
    likewise its own input. */
module AuditChain {
  import opened Prelude

  datatype Digest = NoDigest | Sha(body: Body)

  /** What a request says about the event it records. */
  datatype Event = Event(kind: string, actor: string, resource: string, metadata: map<string, Value>, epoch: string)

  /** Every hashed field of a receipt: the receipt with an empty `Hash`. */
  datatype Body = Body(
    id: string, org: string, sequence: nat, event: Event, key: string,
    commitment: Option<string>, previous: Digest, createdAt: int)

  datatype Receipt = Receipt(body: Body, hash: Digest)

  datatype Value = Scalar(n: int) | Text(text: string) | List(items: seq<string>) | Unsupported

  datatype Request = Request(org: string, event: Event, key: string, content: string)

  datatype AppendError = Incomplete | NotContentFree | InvalidOrphan(sequence: nat) | Contention

  datatype Verdict = Intact | Discontinuity(sequence: nat) | Tampered(sequence: nat) | HeadMismatch

  // ---------------------------------------------------------------- request validation

  const FORBIDDEN: seq<string> :=
    ["text", "content", "prompt", "body", "message", "secret", "token", "password", "credential"]

  predicate Contains(text: string, part: string) {
    exists i :: 0 <= i <= |text| && part <= text[i..]
  }

  function Lower(text: string): string {
    seq(|text|, i requires 0 <= i < |text| =>
      if 'A' <= text[i] <= 'Z' then (text[i] as int + 32) as char else text[i])
  }

  predicate ContentFreeValue(value: Value) {
    match value
    case Scalar(_) => true
    case Text(text) => |text| <= 256
    case List(items) => |items| <= 32 && forall item :: item in items ==> |item| <= 256
    case Unsupported => false
  }

  predicate ContentFree(metadata: map<string, Value>) {
    forall name :: name in metadata ==>
      (forall part :: part in FORBIDDEN ==> !Contains(Lower(name), part)) && ContentFreeValue(metadata[name])
  }

  /** The checks both chains make before they touch any state; None means the request is accepted. */
  function Rejection(request: Request): Option<AppendError> {
    if request.org == "" || request.event.kind == "" || request.event.epoch == "" then Some(Incomplete)
    else if !ContentFree(request.event.metadata) then Some(NotContentFree)
    else None
  }

  /** A request is accepted exactly when it names its organization, kind and epoch and its metadata is free of
      content: no name holds a forbidden word, in whatever case, and no value is long. */
  lemma RejectionExactly(request: Request)
    ensures Rejection(request) == Some(Incomplete) <==>
      request.org == "" || request.event.kind == "" || request.event.epoch == ""
    ensures Rejection(request).None? ==> forall name, i, k ::
      name in request.event.metadata && 0 <= i < |FORBIDDEN| && 0 <= k <= |name| ==> !(FORBIDDEN[i] <= Lower(name)[k..])
    ensures Rejection(request).None? ==> forall name :: name in request.event.metadata ==>
      match request.event.metadata[name]
      case Scalar(_) => true
      case Text(text) => |text| <= 256
      case List(items) => |items| <= 32 && forall item :: item in items ==> |item| <= 256
      case Unsupported => false
  {
    if Rejection(request).None? {
      forall name, i, k | name in request.event.metadata && 0 <= i < |FORBIDDEN| && 0 <= k <= |name|
        ensures !(FORBIDDEN[i] <= Lower(name)[k..])
      {
        assert FORBIDDEN[i] in FORBIDDEN && !Contains(Lower(name), FORBIDDEN[i]);
      }
    }
  }

  // ---------------------------------------------------------------- chains

  function Commit(epoch: string, content: string): Option<string> {
    if content == "" then None else Some(epoch + ['\0'] + content)
  }

  function Seal(request: Request, id: string, sequence: nat, previous: Digest, createdAt: int): Receipt {
    var body := Body(id, request.org, sequence, request.event, request.key,
                     Commit(request.event.epoch, request.content), previous, createdAt);
    Receipt(body, Sha(body))
  }

  /** The hash a receipt at position n has to name: the n-th hash, or the empty string before the first. */
  function HashAt(chain: seq<Receipt>, n: nat): Digest
    requires n <= |chain|
  {
    if n == 0 then NoDigest else chain[n - 1].hash
  }

  ghost predicate LinkAt(chain: seq<Receipt>, i: nat)
    requires i < |chain|
  {
    && chain[i].body.sequence == i + 1
    && chain[i].body.previous == HashAt(chain, i)
    && chain[i].hash == Sha(chain[i].body)
  }

  /** Gapless, forkless and untampered: what an audit chain promises. */
  ghost predicate Linked(chain: seq<Receipt>) {
    forall i: nat :: i < |chain| ==> LinkAt(chain, i)
  }

  lemma LinkedPrefix(chain: seq<Receipt>, n: nat)
    requires Linked(chain) && n <= |chain|
    ensures Linked(chain[..n])
  {
    forall i: nat | i < n ensures LinkAt(chain[..n], i) {
      assert LinkAt(chain, i);
    }
  }

  lemma LinkedExtend(chain: seq<Receipt>, next: Receipt)
    requires Linked(chain)
    requires next.body.sequence == |chain| + 1
    requires next.body.previous == HashAt(chain, |chain|) && next.hash == Sha(next.body)
    ensures Linked(chain + [next])
  {
    var longer := chain + [next];
    forall i: nat | i < |longer| ensures LinkAt(longer, i) {
      if i < |chain| {
        assert LinkAt(chain, i);
      }
    }
  }

  /** Tamper evidence: two chains that both verify and end in the same hash are the same chain, so no
      receipt anywhere in the history can be changed, dropped or added under an unchanged head hash. */
  lemma {:induction false} TamperEvident(a: seq<Receipt>, b: seq<Receipt>)
    requires Linked(a) && Linked(b)
    requires HashAt(a, |a|) == HashAt(b, |b|)
    ensures a == b
    decreases |a|
  {
    assert forall chain: seq<Receipt> :: Linked(chain) && |chain| > 0 ==> LinkAt(chain, |chain| - 1);
    if |a| > 0 {
      var m, n := |a| - 1, |b| - 1;
      assert m == n && a[m] == b[n];
      LinkedPrefix(a, m);
      LinkedPrefix(b, n);
      assert HashAt(a[..m], m) == HashAt(a, m) && HashAt(b[..n], n) == HashAt(b, n);
      TamperEvident(a[..m], b[..n]);
      assert a == a[..m] + [a[m]] && b == b[..n] + [b[n]];
    }
  }

  /** What a prefix and a part have in common is decided by the prefixes: two of them can be continued to the same
      text exactly when one begins the other. */
  lemma PrefixesMeet(p1: string, p2: string)
    requires p1 != p2
    ensures (exists rest1, rest2 :: rest1 != "" && rest2 != "" && p1 + rest1 == p2 + rest2) <==> p1 <= p2 || p2 <= p1
  {
    forall rest1, rest2 | p1 + rest1 == p2 + rest2 ensures p1 <= p2 || p2 <= p1 {
      var whole := p1 + rest1;
      assert whole[..|p1|] == p1 && whole[..|p2|] == p2;
    }
    if p1 <= p2 {
      var rest := p2[|p1|..] + "k";
      assert p2 + "k" == p1 + rest && rest != "";
    } else if p2 <= p1 {
      var rest := p1[|p2|..] + "k";
      assert p1 + "k" == p2 + rest && rest != "";
    }
  }

  /** A commitment binds the content within its epoch. Contents of two epochs share a commitment exactly when one
      epoch, followed by the separator, begins the other one followed by it. */
  lemma CommitmentBinds(epoch1: string, epoch2: string)
    ensures forall a, b :: Commit(epoch1, a) == Commit(epoch1, b) <==> a == b
    ensures epoch1 != epoch2 ==>
      ((exists a, b :: a != "" && b != "" && Commit(epoch1, a) == Commit(epoch2, b))
       <==> epoch1 + ['\0'] <= epoch2 + ['\0'] || epoch2 + ['\0'] <= epoch1 + ['\0'])
  {
    var p1, p2 := epoch1 + ['\0'], epoch2 + ['\0'];
    forall a, b | Commit(epoch1, a) == Commit(epoch1, b) ensures a == b {
      assert (p1 + a)[|p1|..] == a && (p1 + b)[|p1|..] == b;
    }
    if epoch1 != epoch2 {
      assert p1[..|epoch1|] == epoch1 && p2[..|epoch2|] == epoch2;
      PrefixesMeet(p1, p2);
      if a, b :| a != "" && b != "" && p1 + a == p2 + b {
        assert Commit(epoch1, a) == Commit(epoch2, b);
      }
      forall a, b | a != "" && b != "" && Commit(epoch1, a) == Commit(epoch2, b) ensures p1 + a == p2 + b {
      }
    }
  }

  // ---------------------------------------------------------------- composite keys

  /** The key of the in-memory idempotency index. */
  function Composite(org: string, key: string): string {
    org + "/" + key
  }

  /** Two organizations share no idempotency index entry exactly when neither identifier, followed by a
      slash, begins the other one followed by a slash. */
  lemma CompositeCollides(org1: string, org2: string)
    requires org1 != org2
    ensures (exists key1, key2 :: key1 != "" && key2 != "" && Composite(org1, key1) == Composite(org2, key2))
       <==> org1 + "/" <= org2 + "/" || org2 + "/" <= org1 + "/"
  {
    var p1, p2 := org1 + "/", org2 + "/";
    assert p1[..|org1|] == org1 && p2[..|org2|] == org2;
    PrefixesMeet(p1, p2);
    if key1, key2 :| key1 != "" && key2 != "" && p1 + key1 == p2 + key2 {
      assert Composite(org1, key1) == Composite(org2, key2);
    }
    forall key1, key2 | key1 != "" && key2 != "" && Composite(org1, key1) == Composite(org2, key2)
      ensures p1 + key1 == p2 + key2
    {
    }
  }

  // ---------------------------------------------------------------- the locked chain

  /** What the locked chain holds: each organization's receipts and the idempotency index. */
  datatype State = State(receipts: map<string, seq<Receipt>>, byKey: map<string, Receipt>)

  function ChainOf(s: State, org: string): seq<Receipt> {
    if org in s.receipts then s.receipts[org] else []
  }

  /** One append, as a function of the state: the receipt returned and the state after it. */
  function Appended(s: State, request: Request, id: string, at: int): (State, Receipt) {
    var index := Composite(request.org, request.key);
    if request.key != "" && index in s.byKey then (s, s.byKey[index])
    else
      var chain := ChainOf(s, request.org);
      var receipt := Seal(request, id, |chain| + 1, HashAt(chain, |chain|), at);
      (State(s.receipts[request.org := chain + [receipt]],
             if request.key != "" then s.byKey[index := receipt] else s.byKey),
       receipt)
  }

  ghost predicate ChainsLinked(s: State) {
    && (forall org :: org in s.receipts ==> Linked(s.receipts[org]))
    && (forall org, i :: org in s.receipts && 0 <= i < |s.receipts[org]| ==> s.receipts[org][i].body.org == org)
  }

  /** The index answers with a receipt of some chain, filed under that receipt's own composite key. */
  ghost predicate IndexSound(s: State) {
    forall index :: index in s.byKey ==>
      var receipt := s.byKey[index];
      && receipt.body.org in s.receipts && receipt in s.receipts[receipt.body.org]
      && receipt.body.key != "" && index == Composite(receipt.body.org, receipt.body.key)
  }

  lemma AppendKeepsChains(s: State, request: Request, id: string, at: int)
    requires ChainsLinked(s) && IndexSound(s)
    ensures ChainsLinked(Appended(s, request, id, at).0) && IndexSound(Appended(s, request, id, at).0)
  {
    var chain := ChainOf(s, request.org);
    LinkedExtend(chain, Seal(request, id, |chain| + 1, HashAt(chain, |chain|), at));
  }

  /** An append with a key returns a receipt of the requesting organization under that key, unless the
      index already holds another organization's receipt under the same composite key. */
  lemma AppendReturnsOwnReceipt(s: State, request: Request, id: string, at: int)
    requires ChainsLinked(s) && IndexSound(s) && request.key != ""
    ensures var receipt := Appended(s, request, id, at).1;
      (receipt.body.org == request.org && receipt.body.key == request.key)
      <==> !(Composite(request.org, request.key) in s.byKey
             && s.byKey[Composite(request.org, request.key)].body.org != request.org)
  {
    var index := Composite(request.org, request.key);
    if index in s.byKey && s.byKey[index].body.org == request.org {
      var found := s.byKey[index].body.key;
      assert index == Composite(request.org, found);
      assert index[|request.org| + 1..] == found && index[|request.org| + 1..] == request.key;
    }
  }

  /** The slash makes the case real: organization "a" then answers for organization "a/b". */
  lemma SlashCrossesOrganizations(event: Event, id1: string, id2: string, at: int)
    ensures var first := Request("a", event, "b/c", "");
            var second := Request("a/b", event, "c", "");
            var (s1, _) := Appended(State(map[], map[]), first, id1, at);
            Appended(s1, second, id2, at).1.body.org == "a"
  {
    assert Composite("a", "b/c") == Composite("a/b", "c");
  }

  class Chain {
    var receipts: map<string, seq<Receipt>>
    var byKey: map<string, Receipt>

    ghost function Snapshot(): State
      reads this
    {
      State(receipts, byKey)
    }

    ghost predicate Valid()
      reads this
    {
      ChainsLinked(Snapshot()) && IndexSound(Snapshot())
    }

    constructor ()
      ensures Valid() && Snapshot() == State(map[], map[])
    {
      receipts, byKey := map[], map[];
    }

    /** `id` and `at` are the fresh identifier and the clock reading. */
    method Append(request: Request, id: string, at: int) returns (r: Result<Receipt, AppendError>)
      requires Valid()
      modifies this
      ensures Valid()
      ensures r.Err? <==> Rejection(request).Some?
      ensures r.Err? ==> r.error == Rejection(request).value && Snapshot() == old(Snapshot())
      ensures r.Ok? ==> (Snapshot(), r.value) == Appended(old(Snapshot()), request, id, at)
    {
      var rejection := Rejection(request);
      if rejection.Some? {
        return Err(rejection.value);
      }
      AppendKeepsChains(Snapshot(), request, id, at);
      var index := Composite(request.org, request.key);
      if request.key != "" {
        if index in byKey {
          return Ok(byKey[index]);
        }
      }
      var current := if request.org in receipts then receipts[request.org] else [];
      var previous := NoDigest;
      if |current| > 0 {
        previous := current[|current| - 1].hash;
      }
      var receipt := Seal(request, id, |current| + 1, previous, at);
      receipts := receipts[request.org := current + [receipt]];
      if request.key != "" {
        byKey := byKey[index := receipt];
      }
      return Ok(receipt);
    }

    /** Reports no defect exactly when the chain is linked, and otherwise its first broken link. */
    method Verify(org: string) returns (verdict: Verdict)
      ensures verdict.Intact? <==> Linked(ChainOf(Snapshot(), org))
      ensures !verdict.Intact? ==> FirstBroken(ChainOf(Snapshot(), org), verdict)
    {
      var chain := if org in receipts then receipts[org] else [];
      verdict := VerifyLinks(chain);
    }
  }

  ghost predicate BrokenAt(chain: seq<Receipt>, i: nat, verdict: Verdict)
    requires i < |chain|
  {
    var body := chain[i].body;
    match verdict
    case Discontinuity(n) => n == body.sequence && (n != i + 1 || body.previous != HashAt(chain, i))
    case Tampered(n) => n == body.sequence == i + 1 && body.previous == HashAt(chain, i) && chain[i].hash != Sha(body)
    case _ => false
  }

  /** The defect names the first receipt that breaks the chain. */
  ghost predicate FirstBroken(chain: seq<Receipt>, verdict: Verdict) {
    exists i: nat :: i < |chain| && Linked(chain[..i]) && BrokenAt(chain, i, verdict)
  }

  method VerifyLinks(chain: seq<Receipt>) returns (verdict: Verdict)
    ensures verdict.Intact? <==> Linked(chain)
    ensures !verdict.Intact? ==> FirstBroken(chain, verdict)
  {
    var previous := NoDigest;
    for index := 0 to |chain|
      invariant Linked(chain[..index])
      invariant previous == HashAt(chain, index)
    {
      var receipt := chain[index];
      if receipt.body.sequence != index + 1 || receipt.body.previous != previous {
        assert !LinkAt(chain, index) && BrokenAt(chain, index, Discontinuity(receipt.body.sequence));
        return Discontinuity(receipt.body.sequence);
      }
      if receipt.hash != Sha(receipt.body) {
        assert !LinkAt(chain, index) && BrokenAt(chain, index, Tampered(receipt.body.sequence));
        return Tampered(receipt.body.sequence);
      }
      assert chain[..index + 1] == chain[..index] + [receipt];
      LinkedExtend(chain[..index], receipt);
      previous := receipt.hash;
    }
    assert chain[..|chain|] == chain;
    return Intact;
  }
}
