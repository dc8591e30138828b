/**
 First-writer-wins claims, in process memory and as hashed Firestore documents.

 Each store is a class over its own map. The functions on histories of calls say what both
 are for, and `SameAnswersIff` says exactly when the hashed store answers as the other does.
 */
module ClaimStore {
  import opened Wrappers
  import opened Texts

  datatype ClaimKey = ClaimKey(tenant: Text, kind: Text, key: Text)

  datatype ClaimResult = ClaimResult(claimed: bool, recordId: Text)

  datatype ClaimError = ScopeFieldsRequired | TextNotEncodable

  type Answer = Result<ClaimResult, ClaimError>

  /** `_claim_key`: the stripped scope, or ValueError when a field is blank. */
  function ScopedKey(tenant: Text, kind: Text, key: Text): Result<ClaimKey, ClaimError> {
    var k := ClaimKey(Strip(tenant), Strip(kind), Strip(key));
    if k.tenant == [] || k.kind == [] || k.key == [] then Err(ScopeFieldsRequired) else Ok(k)
  }

  function BarJoin(k: ClaimKey): Text {
    k.tenant + [BAR] + (k.kind + [BAR] + k.key)
  }

  /** `claim_document_id` of a scoped key. */
  function DocumentId(k: ClaimKey): Text {
    Lit("claim_") + Sha256Hex(BarJoin(k))
  }

  lemma DocumentIdInjective(k: ClaimKey, l: ClaimKey)
    ensures DocumentId(k) == DocumentId(l) <==> BarJoin(k) == BarJoin(l)
  {
    assert DocumentId(k)[|Lit("claim_")|] == Hex(Sha256(BarJoin(k)));
    assert DocumentId(l)[|Lit("claim_")|] == Hex(Sha256(BarJoin(l)));
  }

  // ---------------------------------------------------------------- one claim

  type Records = map<ClaimKey, Text>

  function Claim(records: Records, k: ClaimKey, recordId: Text): (ClaimResult, Records) {
    if k in records then (ClaimResult(false, records[k]), records)
    else (ClaimResult(true, recordId), records[k := recordId])
  }

  datatype Document = Document(tenantDigest: Text, kind: Text, recordId: Text)

  class InMemoryClaimStore {
    var records: Records

    constructor ()
      ensures records == map[]
    {
      records := map[];
    }

    method ClaimOnce(tenant: Text, kind: Text, key: Text, recordId: Text) returns (answer: Answer)
      modifies this
      ensures match ScopedKey(tenant, kind, key)
              case Err(e) => answer == Err(e) && records == old(records)
              case Ok(k) =>
                && answer == Ok(Claim(old(records), k, recordId).0)
                && records == Claim(old(records), k, recordId).1
    {
      match ScopedKey(tenant, kind, key)
      case Err(e) => answer := Err(e);
      case Ok(k) =>
        if k in records {
          return Ok(ClaimResult(false, records[k]));
        }
        records := records[k := recordId];
        answer := Ok(ClaimResult(true, recordId));
    }
  }

  /** The Firestore transaction runs as one atomic step. */
  class FirestoreClaimStore {
    var documents: map<Text, Document>

    constructor ()
      ensures documents == map[]
    {
      documents := map[];
    }

    method ClaimOnce(tenant: Text, kind: Text, key: Text, recordId: Text) returns (answer: Answer)
      modifies this
      ensures (answer, documents) == DocumentStep(old(documents), Call(tenant, kind, key, recordId))
    {
      match ScopedKey(tenant, kind, key)
      case Err(e) => answer := Err(e);
      case Ok(k) =>
        if !Encodable(BarJoin(k)) {
          return Err(TextNotEncodable);
        }
        var id := DocumentId(k);
        if id in documents {
          return Ok(ClaimResult(false, documents[id].recordId));
        }
        documents := documents[id := Document(Sha256Hex(tenant), kind, recordId)];
        answer := Ok(ClaimResult(true, recordId));
    }
  }

  // ---------------------------------------------------------------- histories

  datatype Call = Call(tenant: Text, kind: Text, key: Text, recordId: Text)

  function KeyOf(c: Call): Result<ClaimKey, ClaimError> { ScopedKey(c.tenant, c.kind, c.key) }

  function MemoryStep(records: Records, c: Call): (Answer, Records) {
    match KeyOf(c)
    case Err(e) => (Err(e), records)
    case Ok(k) => (Ok(Claim(records, k, c.recordId).0), Claim(records, k, c.recordId).1)
  }

  function DocumentStep(documents: map<Text, Document>, c: Call): (Answer, map<Text, Document>) {
    match KeyOf(c)
    case Err(e) => (Err(e), documents)
    case Ok(k) =>
      var id := DocumentId(k);
      if !Encodable(BarJoin(k)) then (Err(TextNotEncodable), documents)
      else if id in documents then (Ok(ClaimResult(false, documents[id].recordId)), documents)
      else (Ok(ClaimResult(true, c.recordId)), documents[id := Document(Sha256Hex(c.tenant), c.kind, c.recordId)])
  }

  function Memory(calls: seq<Call>): Records {
    if calls == [] then map[] else MemoryStep(Memory(calls[..|calls| - 1]), calls[|calls| - 1]).1
  }

  function Documents(calls: seq<Call>): map<Text, Document> {
    if calls == [] then map[] else DocumentStep(Documents(calls[..|calls| - 1]), calls[|calls| - 1]).1
  }

  /** The two stores answer call i of the history alike. */
  predicate SameAnswerAt(calls: seq<Call>, i: nat)
    requires i < |calls|
  {
    MemoryStep(Memory(calls[..i]), calls[i]).0 == DocumentStep(Documents(calls[..i]), calls[i]).0
  }

  predicate SameAnswers(calls: seq<Call>) {
    forall i | 0 <= i < |calls| :: SameAnswerAt(calls, i)
  }

  // ---------------------------------------------------------------- the first record is kept

  predicate ClaimedAt(calls: seq<Call>, i: nat, k: ClaimKey)
    requires i < |calls|
  {
    KeyOf(calls[i]) == Ok(k)
  }

  /** A key is recorded exactly when some call scoped to it, with the first such call's record id. */
  lemma {:induction false} FirstRecordKept(calls: seq<Call>, k: ClaimKey)
    ensures k in Memory(calls) <==> exists i :: 0 <= i < |calls| && ClaimedAt(calls, i, k)
    ensures forall i | 0 <= i < |calls| && ClaimedAt(calls, i, k)
            && (forall j | 0 <= j < i :: !ClaimedAt(calls, j, k)) ::
              k in Memory(calls) && Memory(calls)[k] == calls[i].recordId
  {
    hide KeyOf;
    if calls != [] {
      var n := |calls| - 1;
      var prior := calls[..n];
      FirstRecordKept(prior, k);
      assert forall i | 0 <= i < n :: ClaimedAt(calls, i, k) == ClaimedAt(prior, i, k);
      if k in Memory(prior) {
        var i :| 0 <= i < n && ClaimedAt(prior, i, k);
        assert ClaimedAt(calls, i, k);
      } else if KeyOf(calls[n]) == Ok(k) {
        assert ClaimedAt(calls, n, k);
      }
    }
  }

  /**
   What the transaction answers and writes: a blank scope and a text that cannot be encoded are refused,
   a document that exists answers its record, and a new one holds the hashed tenant, kind and record.
   */
  lemma DocumentsExactly(documents: map<Text, Document>, c: Call)
    ensures var (answer, after) := DocumentStep(documents, c);
            var joined := Join([BAR], [Strip(c.tenant), Strip(c.kind), Strip(c.key)]);
            var id := Lit("claim_") + Sha256Hex(joined);
            if IsBlank(c.tenant) || IsBlank(c.kind) || IsBlank(c.key)
            then answer == Err(ScopeFieldsRequired) && after == documents
            else if !Encodable(joined) then answer == Err(TextNotEncodable) && after == documents
            else if id in documents
            then answer == Ok(ClaimResult(false, documents[id].recordId)) && after == documents
            else && answer == Ok(ClaimResult(true, c.recordId)) && id in after
                 && after == documents[id := after[id]] && after[id].tenantDigest == Sha256Hex(c.tenant)
                 && after[id].kind == c.kind && after[id].recordId == c.recordId
  {
    hide IsBlank, Strip, Join, Encodable, Lit;
    BlankIff(c.tenant);
    BlankIff(c.kind);
    BlankIff(c.key);
    JoinThree(Strip(c.tenant), Strip(c.kind), Strip(c.key));
  }

  lemma JoinThree(a: Text, b: Text, c: Text)
    ensures Join([BAR], [a, b, c]) == a + [BAR] + (b + [BAR] + c)
  {
    assert [a, b, c][1..] == [b, c] && [b, c][1..] == [c];
    assert Join([BAR], [c]) == c && Join([BAR], [b, c]) == b + [BAR] + c;
  }

  // ---------------------------------------------------------------- when the two stores agree

  /** Two calls with different scoped keys whose "|"-joined texts are the same. */
  predicate CollideAt(calls: seq<Call>, i: nat, j: nat)
    requires i < |calls| && j < |calls|
  {
    match (KeyOf(calls[i]), KeyOf(calls[j]))
    case (Ok(k), Ok(l)) => k != l && BarJoin(k) == BarJoin(l)
    case (_, _) => false
  }

  predicate Collides(calls: seq<Call>) {
    exists i, j :: 0 <= i < j < |calls| && CollideAt(calls, i, j)
  }

  predicate EncodableCall(c: Call) {
    KeyOf(c).Ok? ==> Encodable(BarJoin(KeyOf(c).value))
  }

  predicate AllEncodable(calls: seq<Call>) {
    forall i | 0 <= i < |calls| :: EncodableCall(calls[i])
  }

  predicate Related(records: Records, documents: map<Text, Document>, k: ClaimKey) {
    var id := DocumentId(k);
    (k in records <==> id in documents) && (k in records ==> documents[id].recordId == records[k])
  }

  lemma PrefixProperties(calls: seq<Call>, n: nat)
    requires n <= |calls|
    ensures AllEncodable(calls) ==> AllEncodable(calls[..n])
    ensures Collides(calls[..n]) ==> Collides(calls)
  {
    hide KeyOf, BarJoin, Encodable;
    assert forall i | 0 <= i < n :: calls[..n][i] == calls[i];
    if Collides(calls[..n]) {
      var i, j :| 0 <= i < j < n && CollideAt(calls[..n], i, j);
      assert CollideAt(calls, i, j);
    }
  }

  /** Without collisions the document of a used key is that key's record. */
  lemma {:induction false} DocumentsMirrorMemory(calls: seq<Call>, k: ClaimKey)
    requires AllEncodable(calls)
    requires forall i | 0 <= i < |calls| && KeyOf(calls[i]).Ok? && BarJoin(KeyOf(calls[i]).value) == BarJoin(k) ::
               KeyOf(calls[i]).value == k
    ensures Related(Memory(calls), Documents(calls), k)
  {
    hide BarJoin, DocumentId, ScopedKey, Encodable;
    if calls != [] {
      var n := |calls| - 1;
      var prior := calls[..n];
      PrefixProperties(calls, n);
      assert forall i | 0 <= i < n :: prior[i] == calls[i];
      DocumentsMirrorMemory(prior, k);
      assert EncodableCall(calls[n]);
      match KeyOf(calls[n])
      case Err(_) =>
      case Ok(l) => DocumentIdInjective(k, l);
    }
  }

  /** The last call of a history whose earlier part has no collision. */
  lemma LastAnswer(calls: seq<Call>)
    requires calls != [] && AllEncodable(calls) && !Collides(calls[..|calls| - 1])
    ensures SameAnswerAt(calls, |calls| - 1) <==> !Collides(calls)
  {
    hide BarJoin, DocumentId, ScopedKey, Encodable;
    var n := |calls| - 1;
    var prior := calls[..n];
    PrefixProperties(calls, n);
    assert EncodableCall(calls[n]);
    match KeyOf(calls[n])
    case Err(_) =>
      OnlyLastCollides(calls);
    case Ok(l) =>
      OnlyLastCollides(calls);
      if Collides(calls) {
        var i :| 0 <= i < n && CollideAt(calls, i, n);
        var k := KeyOf(calls[i]).value;
        NoMateBelow(calls, i, k);
        DocumentsMirrorMemory(prior, k);
        FirstRecordKept(prior, k);
        assert ClaimedAt(prior, i, k);
        FirstRecordKept(prior, l);
        forall j | 0 <= j < n ensures !ClaimedAt(prior, j, l) {
          assert KeyOf(prior[j]) != Ok(l);
        }
        DocumentIdInjective(k, l);
      } else {
        assert forall i | 0 <= i < n && KeyOf(prior[i]).Ok? && BarJoin(KeyOf(prior[i]).value) == BarJoin(l) ::
            KeyOf(prior[i]).value == l by {
          forall i | 0 <= i < n && KeyOf(prior[i]).Ok? && BarJoin(KeyOf(prior[i]).value) == BarJoin(l)
            ensures KeyOf(prior[i]).value == l
          {
            assert !CollideAt(calls, i, n);
          }
        }
        DocumentsMirrorMemory(prior, l);
      }
  }

  /** Some earlier call collides with call n. */
  predicate CollidesWith(calls: seq<Call>, n: nat)
    requires n < |calls|
  {
    exists i :: 0 <= i < n && CollideAt(calls, i, n)
  }

  lemma OnlyLastCollides(calls: seq<Call>)
    requires calls != [] && !Collides(calls[..|calls| - 1])
    ensures Collides(calls) <==> CollidesWith(calls, |calls| - 1)
  {
    hide KeyOf, BarJoin;
    var n := |calls| - 1;
    forall i, j | 0 <= i < j < n ensures !CollideAt(calls, i, j) {
      assert !CollideAt(calls[..n], i, j);
    }
  }

  /** Among calls that do not collide, a used join determines its key. */
  lemma NoMateBelow(calls: seq<Call>, i: nat, k: ClaimKey)
    requires calls != [] && i < |calls| - 1 && !Collides(calls[..|calls| - 1]) && KeyOf(calls[i]) == Ok(k)
    ensures var prior := calls[..|calls| - 1];
            forall j | 0 <= j < |prior| && KeyOf(prior[j]).Ok? && BarJoin(KeyOf(prior[j]).value) == BarJoin(k) ::
              KeyOf(prior[j]).value == k
  {
    hide KeyOf, BarJoin;
    var prior := calls[..|calls| - 1];
    forall j | 0 <= j < |prior| && KeyOf(prior[j]).Ok? && BarJoin(KeyOf(prior[j]).value) == BarJoin(k)
      ensures KeyOf(prior[j]).value == k
    {
      if i < j { assert !CollideAt(prior, i, j); } else if j < i { assert !CollideAt(prior, j, i); }
    }
  }

  /**
   The hashed store answers a whole history as the in-memory store does exactly when every
   scoped text can be encoded and no two different scopes share a "|"-joined text.
   */
  lemma {:induction false} SameAnswersIff(calls: seq<Call>)
    ensures SameAnswers(calls) <==> AllEncodable(calls) && !Collides(calls)
  {
    hide MemoryStep, DocumentStep, Memory, Documents, KeyOf, Encodable, BarJoin;
    if calls != [] {
      var n := |calls| - 1;
      var prior := calls[..n];
      SameAnswersIff(prior);
      PrefixProperties(calls, n);
      SplitSameAnswers(calls);
      UnencodableDiffers(calls);
      if AllEncodable(prior) && !Collides(prior) && EncodableCall(calls[n]) {
        assert AllEncodable(calls) by {
          forall i | 0 <= i < |calls| ensures EncodableCall(calls[i]) {
            if i < n { assert calls[i] == prior[i]; }
          }
        }
        LastAnswer(calls);
      }
    }
  }

  lemma SplitSameAnswers(calls: seq<Call>)
    requires calls != []
    ensures SameAnswers(calls) <==> SameAnswers(calls[..|calls| - 1]) && SameAnswerAt(calls, |calls| - 1)
  {
    hide MemoryStep, DocumentStep, Memory, Documents;
    var prior := calls[..|calls| - 1];
    forall i | 0 <= i < |prior| ensures SameAnswerAt(prior, i) == SameAnswerAt(calls, i) {
      assert prior[..i] == calls[..i];
    }
  }

  lemma UnencodableDiffers(calls: seq<Call>)
    requires calls != []
    ensures SameAnswerAt(calls, |calls| - 1) ==> EncodableCall(calls[|calls| - 1])
  {
    hide Memory, Documents, BarJoin, Encodable;
  }

  /** Scopes whose tenant and kind hold no "|" never collide. */
  lemma BarFreeScopesNeverCollide(calls: seq<Call>)
    requires forall i | 0 <= i < |calls| :: Without(BAR, calls[i].tenant) && Without(BAR, calls[i].kind)
    ensures !Collides(calls)
  {
    hide Strip, CollideAt;
    forall i, j | 0 <= i < j < |calls| ensures !CollideAt(calls, i, j) {
      BarFreeScopesDiffer(calls, i, j);
    }
  }

  lemma StripWithout(x: Symbol, t: Text)
    requires Without(x, t)
    ensures Without(x, Strip(t))
  {
    var i := StripIsSlice(t);
    assert forall k | 0 <= k < |Strip(t)| :: Strip(t)[k] == t[i + k];
  }

  lemma BarFreeScopesDiffer(calls: seq<Call>, i: nat, j: nat)
    requires i < |calls| && j < |calls|
    requires Without(BAR, calls[i].tenant) && Without(BAR, calls[i].kind)
    requires Without(BAR, calls[j].tenant) && Without(BAR, calls[j].kind)
    ensures !CollideAt(calls, i, j)
  {
    hide Strip;
    if CollideAt(calls, i, j) {
      var k, l := KeyOf(calls[i]).value, KeyOf(calls[j]).value;
      StripWithout(BAR, calls[i].tenant);
      StripWithout(BAR, calls[j].tenant);
      StripWithout(BAR, calls[i].kind);
      StripWithout(BAR, calls[j].kind);
      SplitAtFirst(BAR, k.tenant, k.kind + [BAR] + k.key, l.tenant, l.kind + [BAR] + l.key);
      SplitAtFirst(BAR, k.kind, k.key, l.kind, l.key);
      assert false;
    }
  }

  lemma ScopeOfWords(c: Call)
    requires IsWord(c.tenant) && IsWord(c.kind) && IsWord(c.key)
    ensures KeyOf(c) == Ok(ClaimKey(c.tenant, c.kind, c.key))
  {
    hide Strip, IsSpace;
    StripFixed(c.tenant);
    StripFixed(c.kind);
    StripFixed(c.key);
  }

  /** With a "|" inside the tenant, two different scopes share one document. */
  lemma BarInTenantCollides() returns (calls: seq<Call>)
    ensures |calls| == 2 && Collides(calls) && !SameAnswers(calls)
  {
    hide KeyOf, Encodable, SameAnswers;
    var a, b, c := Ch('a' as int), Ch('b' as int), Ch('c' as int);
    var first, second := Call([a, BAR, b], [c], [a], [a]), Call([a], [b, BAR, c], [a], [b]);
    calls := [first, second];
    ScopeOfWords(first);
    ScopeOfWords(second);
    var k, l := ClaimKey([a, BAR, b], [c], [a]), ClaimKey([a], [b, BAR, c], [a]);
    assert BarJoin(k) == [a, BAR, b, BAR, c, BAR, a] == BarJoin(l);
    assert CollideAt(calls, 0, 1);
    SameAnswersIff(calls);
  }
}
