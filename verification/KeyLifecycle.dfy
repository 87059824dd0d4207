/** The keys in the token and their lifecycle over whole sequences of keymaster operations.  The
    history of `KeyToken.Token` is such a sequence. */
module KeyLifecycle {
  import opened Options
  import opened KeyBlob

  datatype Kind = PublicKey | PrivateKey

  datatype Obj = Obj(id: seq<Byte>, kind: Kind)

  type Store = map<nat, Obj>

  predicate Is(store: Store, n: nat, id: seq<Byte>, kind: Kind) { n in store && store[n] == Obj(id, kind) }

  /** No two objects share ID and class. */
  ghost predicate Unique(store: Store) {
    forall a, b :: a in store && b in store && store[a] == store[b] ==> a == b
  }

  /** The pair of objects that a blob resolves to. */
  predicate ResolvesTo(store: Store, blob: seq<Byte>, pub: nat, priv: nat) {
    var id := DecodeId(blob);
    id.Some? && Is(store, pub, id.value, PublicKey) && Is(store, priv, id.value, PrivateKey)
  }

  ghost predicate Resolves(store: Store, blob: seq<Byte>) {
    exists pub, priv :: ResolvesTo(store, blob, pub, priv)
  }

  /** Key generation or import that succeeded; an import that left only the public object; a
      delete that succeeded; a delete that failed after destroying the private key. */
  datatype KeyOp =
    | Create(id: seq<Byte>, pub: nat, priv: nat)
    | CreateHalf(id: seq<Byte>, pub: nat)
    | Delete(blob: seq<Byte>, pub: nat, priv: nat)
    | DeleteHalf(blob: seq<Byte>, pub: nat, priv: nat)

  /** `used` holds every ID generated so far. */
  datatype Keys = Keys(store: Store, used: set<seq<Byte>>)

  const EMPTY := Keys(map[], {})

  predicate Enabled(s: Keys, op: KeyOp) {
    match op
    case Create(id, pub, priv) =>
      |id| == ID_LENGTH && id !in s.used && pub != priv && pub !in s.store && priv !in s.store
    case CreateHalf(id, pub) => |id| == ID_LENGTH && id !in s.used && pub !in s.store
    case Delete(blob, pub, priv) => ResolvesTo(s.store, blob, pub, priv)
    case DeleteHalf(blob, pub, priv) => ResolvesTo(s.store, blob, pub, priv)
  }

  /** The store with one more pair. */
  function WithPair(store: Store, id: seq<Byte>, pub: nat, priv: nat): Store {
    store[pub := Obj(id, PublicKey)][priv := Obj(id, PrivateKey)]
  }

  function Apply(s: Keys, op: KeyOp): Keys
    requires Enabled(s, op)
  {
    match op
    case Create(id, pub, priv) =>
      Keys(WithPair(s.store, id, pub, priv), s.used + {id})
    case CreateHalf(id, pub) => Keys(s.store[pub := Obj(id, PublicKey)], s.used + {id})
    case Delete(_, pub, priv) => s.(store := s.store - {priv} - {pub})
    case DeleteHalf(_, _, priv) => s.(store := s.store - {priv})
  }

  function Run(ops: seq<KeyOp>): Option<Keys> {
    if ops == [] then Some(EMPTY)
    else
      var before := Run(ops[..|ops| - 1]);
      if before.Some? && Enabled(before.value, ops[|ops| - 1])
      then Some(Apply(before.value, ops[|ops| - 1]))
      else None
  }

  ghost predicate Inv(s: Keys) {
    Unique(s.store) && forall n :: n in s.store ==> s.store[n].id in s.used
  }

  lemma StepKeepsInv(s: Keys, op: KeyOp)
    requires Inv(s) && Enabled(s, op)
    ensures Inv(Apply(s, op))
  {
  }

  lemma {:induction false} RunKeepsInv(ops: seq<KeyOp>)
    requires Run(ops).Some?
    ensures Inv(Run(ops).value)
  {
    if ops != [] {
      RunKeepsInv(ops[..|ops| - 1]);
      StepKeepsInv(Run(ops[..|ops| - 1]).value, ops[|ops| - 1]);
    }
  }

  /** The ID an operation is about. */
  function Subject(op: KeyOp): Option<seq<Byte>> {
    match op
    case Create(id, _, _) => Some(id)
    case CreateHalf(id, _) => Some(id)
    case Delete(blob, _, _) => DecodeId(blob)
    case DeleteHalf(blob, _, _) => DecodeId(blob)
  }

  /** Blobs of keys other than `id` resolve in both stores alike. */
  ghost predicate OthersAlike(store: Store, store': Store, id: Option<seq<Byte>>) {
    forall blob, pub, priv :: DecodeId(blob) != id ==>
      (ResolvesTo(store', blob, pub, priv) <==> ResolvesTo(store, blob, pub, priv))
  }

  /** An operation leaves every blob that names another key resolving exactly as before. */
  lemma OthersUnaffected(s: Keys, op: KeyOp, blob: seq<Byte>, pub: nat, priv: nat)
    requires Inv(s) && Enabled(s, op) && DecodeId(blob) != Subject(op)
    ensures ResolvesTo(Apply(s, op).store, blob, pub, priv) <==> ResolvesTo(s.store, blob, pub, priv)
  {
  }

  predicate Deletes(op: KeyOp, id: seq<Byte>) {
    (op.Delete? || op.DeleteHalf?) && DecodeId(op.blob) == Some(id)
  }

  lemma {:induction false} CreatedIsUsed(ops: seq<KeyOp>, k: nat)
    requires Run(ops).Some? && k < |ops| && (ops[k].Create? || ops[k].CreateHalf?)
    ensures ops[k].id in Run(ops).value.used && |ops[k].id| == ID_LENGTH
  {
    if k < |ops| - 1 { CreatedIsUsed(ops[..|ops| - 1], k); }
  }

  /** A key that was generated or imported resolves to its own pair, and to no other, for as
      long as it is not deleted, whatever happens to other keys. */
  lemma {:induction false} KeyKeepsResolving(ops: seq<KeyOp>, k: nat)
    requires Run(ops).Some? && k < |ops| && ops[k].Create?
    requires forall j :: k < j < |ops| ==> !Deletes(ops[j], ops[k].id)
    ensures forall pub, priv :: ResolvesTo(Run(ops).value.store, Encode(ops[k].id), pub, priv)
                            <==> pub == ops[k].pub && priv == ops[k].priv
  {
    var s, id := Run(ops).value, ops[k].id;
    CreatedIsUsed(ops, k);
    RoundTrip(id);
    RunKeepsInv(ops);
    var before, last := Run(ops[..|ops| - 1]).value, ops[|ops| - 1];
    RunKeepsInv(ops[..|ops| - 1]);
    if k < |ops| - 1 {
      KeyKeepsResolving(ops[..|ops| - 1], k);
      CreatedIsUsed(ops[..|ops| - 1], k);
      assert DecodeId(Encode(id)) != Subject(last);
      forall pub, priv
        ensures ResolvesTo(s.store, Encode(id), pub, priv) <==> ResolvesTo(before.store, Encode(id), pub, priv)
      {
        OthersUnaffected(before, last, Encode(id), pub, priv);
      }
    } else {
      assert ResolvesTo(s.store, Encode(id), ops[k].pub, ops[k].priv);
    }
  }

  /** Once a delete has succeeded, or failed after destroying the private key, no blob with that
      ID resolves again. */
  lemma {:induction false} DeletedStaysDeleted(ops: seq<KeyOp>, k: nat, blob: seq<Byte>)
    requires Run(ops).Some? && k < |ops| && (ops[k].Delete? || ops[k].DeleteHalf?)
    requires DecodeId(blob) == DecodeId(ops[k].blob)
    ensures !Resolves(Run(ops).value.store, blob)
    ensures DecodeId(blob).Some? && DecodeId(blob).value in Run(ops).value.used
  {
    var before, last := Run(ops[..|ops| - 1]).value, ops[|ops| - 1];
    RunKeepsInv(ops[..|ops| - 1]);
    if k < |ops| - 1 {
      DeletedStaysDeleted(ops[..|ops| - 1], k, blob);
      if DecodeId(blob) != Subject(last) {
        forall pub, priv ensures !ResolvesTo(Run(ops).value.store, blob, pub, priv) {
          OthersUnaffected(before, last, blob, pub, priv);
        }
      }
    }
  }

  /** The public object that an operation left alone. */
  predicate Orphan(store: Store, op: KeyOp) {
    var id := Subject(op);
    && id.Some? && Is(store, op.pub, id.value, PublicKey)
    && forall n :: n in store ==> store[n] != Obj(id.value, PrivateKey)
  }

  /** What a half-done import or delete leaves behind stays for good: its public object remains in
      the token, without a private key, and no blob reaches it any more. */
  lemma {:induction false} OrphansStay(ops: seq<KeyOp>, k: nat)
    requires Run(ops).Some? && k < |ops| && (ops[k].CreateHalf? || ops[k].DeleteHalf?)
    ensures Orphan(Run(ops).value.store, ops[k]) && Subject(ops[k]).value in Run(ops).value.used
  {
    var before, last := Run(ops[..|ops| - 1]).value, ops[|ops| - 1];
    RunKeepsInv(ops[..|ops| - 1]);
    if k < |ops| - 1 { OrphansStay(ops[..|ops| - 1], k); }
  }

  /** A run made longer by one operation. */
  lemma RunSnoc(ops: seq<KeyOp>, op: KeyOp)
    requires Run(ops).Some? && Enabled(Run(ops).value, op)
    ensures Run(ops + [op]) == Some(Apply(Run(ops).value, op))
    ensures OthersAlike(Run(ops).value.store, Apply(Run(ops).value, op).store, Subject(op))
    ensures Unique(Apply(Run(ops).value, op).store)
  {
    assert (ops + [op])[..|ops|] == ops;
    RunKeepsInv(ops);
    StepKeepsInv(Run(ops).value, op);
    var s := Run(ops).value;
    forall blob, pub, priv | DecodeId(blob) != Subject(op)
      ensures ResolvesTo(Apply(s, op).store, blob, pub, priv) <==> ResolvesTo(s.store, blob, pub, priv)
    {
      OthersUnaffected(s, op, blob, pub, priv);
    }
  }
}
