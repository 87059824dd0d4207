/** The keymaster's use of the token, for every sequence of return codes: the lifecycle of keys
    and the protocol for sessions, searches and object handles (section 11.7 of PKCS #11
    v2.20, with the C_CloseObjectHandle extension). */
module KeyToken {
  import opened Options
  import opened KeyBlob
  import opened KeyLifecycle

  // ---------- the protocol ----------

  /** The calls that matter to the protocol, as the token sees them. */
  datatype Call =
    | OpenSession           // a subsession was opened
    | CloseSession
    | StartSearch           // C_FindObjectsInit, accepted
    | StartSearchRefused
    | EndSearch
    | Obtain(handle: nat)   // the token handed out an object handle
    | CloseHandle(handle: nat)

  datatype Protocol = Protocol(session: bool, searching: bool, live: multiset<nat>)

  const QUIET := Protocol(false, false, multiset{})

  /** What one call does to a protocol state, or `None` if it breaks the rules: one session at a
      time, one search at a time, handles closed once and only if handed out, and no session
      closed while a handle is live or a search active. */
  function After(p: Protocol, c: Call): Option<Protocol> {
    match c
    case OpenSession => if p.session then None else Some(p.(session := true))
    case CloseSession => if p.session && !p.searching && p.live == multiset{} then Some(p.(session := false)) else None
    case StartSearch => if p.searching then None else Some(p.(searching := true))
    case StartSearchRefused => if p.searching then None else Some(p)
    case EndSearch => if p.searching then Some(p.(searching := false)) else None
    case Obtain(h) => Some(p.(live := p.live + multiset{h}))
    case CloseHandle(h) => if h in p.live then Some(p.(live := p.live - multiset{h})) else None
  }

  function AfterAll(p: Protocol, trace: seq<Call>): Option<Protocol> {
    if trace == [] then Some(p)
    else
      var before := AfterAll(p, trace[..|trace| - 1]);
      if before.None? then None else After(before.value, trace[|trace| - 1])
  }

  lemma AfterAllSnoc(trace: seq<Call>, c: Call)
    requires AfterAll(QUIET, trace).Some?
    ensures AfterAll(QUIET, trace + [c]) == After(AfterAll(QUIET, trace).value, c)
  {
    assert (trace + [c])[..|trace|] == trace;
  }

  function Count(trace: seq<Call>, c: Call): nat {
    if trace == [] then 0 else Count(trace[..|trace| - 1], c) + if trace[|trace| - 1] == c then 1 else 0
  }

  /** In a trace that keeps the rules, every handle was passed to C_CloseObjectHandle as often
      as it was handed out, but for the live ones. */
  lemma {:induction false} HandleBalance(trace: seq<Call>, h: nat)
    requires AfterAll(QUIET, trace).Some?
    ensures Count(trace, Obtain(h)) == Count(trace, CloseHandle(h)) + AfterAll(QUIET, trace).value.live[h]
  {
    if trace != [] { HandleBalance(trace[..|trace| - 1], h); }
  }

  /** Every subsession opened was closed and every search ended, but for the current one. */
  lemma {:induction false} SessionBalance(trace: seq<Call>)
    requires AfterAll(QUIET, trace).Some?
    ensures var p := AfterAll(QUIET, trace).value;
            && Count(trace, OpenSession) == Count(trace, CloseSession) + (if p.session then 1 else 0)
            && Count(trace, StartSearch) == Count(trace, EndSearch) + (if p.searching then 1 else 0)
  {
    if trace != [] { SessionBalance(trace[..|trace| - 1]); }
  }

  /** The rules, spelled out on the trace.  When a subsession is closed, every handle handed out so
      far has been closed, exactly as often, and every search ended; a search starts only when every
      earlier one has ended; and a handle is closed only if it was handed out more often than
      closed. */
  lemma {:induction false} RulesMean(trace: seq<Call>, i: nat)
    requires AfterAll(QUIET, trace).Some? && i < |trace|
    ensures var before := trace[..i];
            && (trace[i].CloseSession? ==>
                  && (forall h: nat :: Count(before, Obtain(h)) == Count(before, CloseHandle(h)))
                  && Count(before, StartSearch) == Count(before, EndSearch)
                  && Count(before, OpenSession) == Count(before, CloseSession) + 1)
            && (trace[i].OpenSession? ==> Count(before, OpenSession) == Count(before, CloseSession))
            && (trace[i].StartSearch? || trace[i].StartSearchRefused? ==>
                  Count(before, StartSearch) == Count(before, EndSearch))
            && (trace[i].EndSearch? ==> Count(before, StartSearch) == Count(before, EndSearch) + 1)
            && (trace[i].CloseHandle? ==>
                  Count(before, Obtain(trace[i].handle)) > Count(before, CloseHandle(trace[i].handle)))
  {
    var before := trace[..i];
    PrefixRuns(trace, i);
    PrefixRuns(trace, i + 1);
    assert trace[..i + 1][..i] == before;
    SessionBalance(before);
    forall h: nat
      ensures Count(before, Obtain(h)) == Count(before, CloseHandle(h)) + AfterAll(QUIET, before).value.live[h]
    {
      HandleBalance(before, h);
    }
  }

  lemma {:induction false} PrefixRuns(trace: seq<Call>, n: nat)
    requires AfterAll(QUIET, trace).Some? && n <= |trace|
    ensures AfterAll(QUIET, trace[..n]).Some?
  {
    if n == |trace| {
      assert trace[..n] == trace;
    } else {
      PrefixRuns(trace[..|trace| - 1], n);
      assert trace[..|trace| - 1][..n] == trace[..n];
    }
  }

  /** The protocol state with one more live handle, unless it is the invalid one. */
  function With(p: Protocol, h: nat): Protocol {
    if h == 0 then p else p.(live := p.live + multiset{h})
  }

  // ---------- the token's answers ----------

  /** The answers to one search: to C_FindObjectsInit and to C_FindObjects. */
  datatype Search = Search(init: bool, find: bool)

  /** The answers during one operation on a blob: to opening the subsession and to the searches
      for the public and the private object. */
  datatype Lookup = Lookup(session: bool, pub: Search, priv: Search)

  const ALL_WELL := Lookup(true, Search(true, true), Search(true, true))

  predicate Answered(rv: Search) { rv.init && rv.find }

  /** keyblob_restore succeeds. */
  ghost predicate Found(store: Store, blob: Option<seq<Byte>>, rv: Lookup) {
    blob.Some? && Resolves(store, blob.value) && Answered(rv.pub) && Answered(rv.priv)
  }

  // ---------- the token and the operations ----------

  /** The token: its objects, the objects behind the handles it gave out, the trace of calls and
      the history of what the operations did to the keys.  What the token answers is a parameter
      of each operation, true for success. */
  class Token {
    var store: Store
    var handles: map<nat, nat>
    var nextHandle: nat
    ghost var trace: seq<Call>
    ghost var state: Option<Protocol>
    ghost var used: set<seq<Byte>>
    ghost var history: seq<KeyOp>

    ghost predicate Sound()
      reads this
    {
      && state == AfterAll(QUIET, trace)
      && 0 < nextHandle && (forall h :: h in handles ==> 0 < h < nextHandle)
    }

    /** Between operations: the protocol is at rest, and the history leads to the present keys. */
    ghost predicate Valid()
      reads this
    {
      Sound() && state == Some(QUIET) && Run(history) == Some(Keys(store, used))
    }

    constructor ()
      ensures Valid() && store == map[] && history == [] && used == {}
    {
      store, handles, nextHandle, trace, used, history := map[], map[], 1, [], {}, [];
      state := Some(QUIET);
    }

    ghost method Record(c: Call)
      requires Sound() && state.Some?
      modifies this`trace, this`state
      ensures Sound() && trace == old(trace) + [c] && state == After(old(state).value, c)
    {
      AfterAllSnoc(trace, c);
      trace := trace + [c];
      state := After(state.value, c);
    }

    /** CryptoSession's constructor; on failure the subsession stays invalid. */
    method OpenSubsession(ok: bool)
      requires Sound() && state == Some(QUIET)
      modifies this`trace, this`state
      ensures Sound() && state == Some(QUIET.(session := ok))
    {
      if ok {
        Record(OpenSession);
      }
    }

    /** CryptoSession's destructor. */
    method CloseSubsession(wasOpen: bool)
      requires Sound() && state == Some(QUIET.(session := wasOpen))
      modifies this`trace, this`state
      ensures Sound() && state == Some(QUIET)
    {
      if wasOpen {
        Record(CloseSession);
      }
    }

    /** ObjectHandle's destructor; zero is the invalid handle.  The call's result is ignored. */
    method CloseObjectHandle(h: nat, ghost rest: Protocol)
      requires Sound() && state == Some(With(rest, h))
      modifies this`trace, this`state
      ensures Sound() && state == Some(rest)
    {
      if h != 0 {
        assert With(rest, h).live - multiset{h} == rest.live;
        Record(CloseHandle(h));
      }
    }

    /** A fresh non-zero handle for an object. */
    method HandOut(n: nat) returns (h: nat)
      requires Sound() && state.Some?
      modifies this`trace, this`state, this`handles, this`nextHandle
      ensures Sound() && h != 0 && h !in old(handles) && handles == old(handles)[h := n]
      ensures state == Some(With(old(state).value, h))
    {
      h := nextHandle;
      nextHandle := nextHandle + 1;
      handles := handles[h := n];
      Record(Obtain(h));
    }

    /** find_single_object: a handle for an object of this ID and class exactly if there is one and
        the token answers well; otherwise zero.  The search is ended either way. */
    method FindSingleObject(id: seq<Byte>, kind: Kind, rv: Search) returns (h: nat)
      requires Sound() && state.Some? && !state.value.searching
      modifies this`trace, this`state, this`handles, this`nextHandle
      ensures Sound() && state == Some(With(old(state).value, h))
      ensures h != 0 <==> Answered(rv) && exists n :: Is(store, n, id, kind)
      ensures h != 0 ==> h in handles && Is(store, handles[h], id, kind)
      ensures forall g :: g in old(handles) ==> g in handles && handles[g] == old(handles)[g] && g != h
    {
      h := 0;
      if !rv.init {
        Record(StartSearchRefused);
        return;
      }
      Record(StartSearch);
      var hits := set n | n in store && store[n] == Obj(id, kind);
      assert forall n :: Is(store, n, id, kind) <==> n in hits;
      if rv.find && hits != {} {
        var n :| n in hits;
        assert Is(store, n, id, kind);
        h := HandOut(n);
      }
      Record(EndSearch);
      assert store == old(store) && ((exists n :: Is(store, n, id, kind)) <==> hits != {});
    }

    /** keyblob_restore: both handles, or failure with at most the public one obtained. */
    method KeyblobRestore(blob: Option<seq<Byte>>, rv: Lookup) returns (ok: bool, pub: nat, priv: nat)
      requires Sound() && state.Some? && !state.value.searching
      modifies this`trace, this`state, this`handles, this`nextHandle
      ensures Sound() && state == Some(With(With(old(state).value, pub), priv))
      ensures ok <==> Found(store, blob, rv)
      ensures ok <==> pub != 0 && priv != 0
      ensures priv != 0 ==> pub != 0 && pub != priv
      ensures ok ==> pub in handles && priv in handles && ResolvesTo(store, blob.value, handles[pub], handles[priv])
    {
      ok, pub, priv := false, 0, 0;
      var id := Restore(blob);
      if id.None? {
        return;
      }
      pub := FindSingleObject(id.value, PublicKey, rv.pub);
      if pub == 0 {
        return;
      }
      priv := FindSingleObject(id.value, PrivateKey, rv.priv);
      ok := priv != 0;
      if ok { assert ResolvesTo(store, blob.value, handles[pub], handles[priv]); }
    }

    /** The destructors at the end of every operation: private handle, public handle, session. */
    method LeaveScope(session: bool, pub: nat, priv: nat)
      requires Sound() && state == Some(With(With(QUIET.(session := session), pub), priv))
      modifies this`trace, this`state
      ensures Sound() && state == Some(QUIET)
    {
      CloseObjectHandle(priv, With(QUIET.(session := session), pub));
      CloseObjectHandle(pub, QUIET.(session := session));
      CloseSubsession(session);
    }

    /** The operations change the keys as one step of their lifecycle. */
    ghost method Remember(op: KeyOp)
      requires Run(history).Some? && Enabled(Run(history).value, op) && Apply(Run(history).value, op).store == store
      modifies this`history, this`used
      ensures history == old(history) + [op] && Run(history) == Some(Keys(store, used))
      ensures used == Apply(Run(old(history)).value, op).used
      ensures OthersAlike(Run(old(history)).value.store, store, Subject(op))
    {
      RunSnoc(history, op);
      used := Apply(Run(history).value, op).used;
      history := history + [op];
    }

    /** C_DestroyObject */
    method DestroyObject(h: nat, ok: bool)
      requires h in handles
      modifies this`store
      ensures store == if ok then old(store) - {handles[h]} else old(store)
    {
      if ok {
        store := store - {handles[h]};
      }
    }

    /** tee_delete_keypair: private key first, then the public one.  `pub` and `priv` are the pair
        that the blob resolves to, if it was found. */
    method DeleteKeypair(blob: Option<seq<Byte>>, rv: Lookup, destroyPriv: bool, destroyPub: bool)
      returns (ok: bool, ghost pub: nat, ghost priv: nat)
      requires Valid()
      modifies this
      ensures Valid()
      ensures ok <==> Found(old(store), blob, rv) && destroyPriv && destroyPub
      ensures Found(old(store), blob, rv) ==> ResolvesTo(old(store), blob.value, pub, priv)
      ensures ok ==> store == old(store) - {priv} - {pub} && history == old(history) + [Delete(blob.value, pub, priv)]
      // A failed call has changed something exactly if the token destroyed the private key and
      // refused to destroy the public one; then the public object is left alone.
      ensures !ok ==> (store != old(store) <==> Found(old(store), blob, rv) && destroyPriv && !destroyPub)
      ensures !ok && store != old(store) ==>
                store == old(store) - {priv} && history == old(history) + [DeleteHalf(blob.value, pub, priv)]
      ensures store == old(store) ==> history == old(history)
      ensures used == old(used) && OthersAlike(old(store), store, if blob.Some? then DecodeId(blob.value) else None)
    {
      OpenSubsession(rv.session);
      var found, hPub, hPriv := KeyblobRestore(blob, rv);
      ok, pub, priv := false, 0, 0;
      if found {
        pub, priv := handles[hPub], handles[hPriv];
        DestroyObject(hPriv, destroyPriv);
        if destroyPriv {
          DestroyObject(hPub, destroyPub);
          ok := destroyPub;
          Remember(if ok then Delete(blob.value, pub, priv) else DeleteHalf(blob.value, pub, priv));
          assert priv in old(store) && priv !in store;
        }
      }
      LeaveScope(rv.session, hPub, hPriv);
    }

    /** tee_get_keypair_public, tee_sign_data and tee_verify_data: the key is looked up, then
        further calls are made with its handles, each answered by one of `codes`. */
    method UseKeypair(blob: Option<seq<Byte>>, rv: Lookup, codes: seq<bool>) returns (ok: bool)
      requires Valid()
      modifies this`trace, this`state, this`handles, this`nextHandle
      ensures Valid()
      ensures ok <==> Found(store, blob, rv) && forall i :: 0 <= i < |codes| ==> codes[i]
    {
      OpenSubsession(rv.session);
      var pub, priv;
      ok, pub, priv := KeyblobRestore(blob, rv);
      var i := 0;
      while ok && i < |codes|
        invariant 0 <= i <= |codes|
        invariant ok ==> Found(store, blob, rv) && forall k :: 0 <= k < i ==> codes[k]
        invariant !ok ==> !Found(store, blob, rv) || exists k :: 0 <= k < i && !codes[k]
      {
        ok := codes[i];
        i := i + 1;
      }
      LeaveScope(rv.session, pub, priv);
    }

    /** C_CreateObject: zero if the token refuses. */
    method CreateObject(id: seq<Byte>, kind: Kind, n: nat, ok: bool) returns (h: nat)
      requires Sound() && state.Some?
      modifies this`trace, this`state, this`store, this`handles, this`nextHandle
      ensures Sound() && state == Some(With(old(state).value, h)) && (h != 0 <==> ok)
      ensures store == if ok then old(store)[n := Obj(id, kind)] else old(store)
    {
      h := 0;
      if ok {
        store := store[n := Obj(id, kind)];
        h := HandOut(n);
      }
    }

    /** tee_import_keypair: two objects under one new ID.  `converts` tells whether the private
        key's numbers can be converted once the public object exists. */
    method ImportKeypair(id: seq<Byte>, pub: nat, priv: nat,
                         session: bool, createPub: bool, converts: bool, createPriv: bool)
      returns (blob: Option<seq<Byte>>)
      requires Valid() && |id| == ID_LENGTH && id !in used && pub != priv && pub !in store && priv !in store
      modifies this
      ensures Valid()
      ensures blob.Some? <==> createPub && converts && createPriv
      ensures blob.Some? ==> blob.value == Encode(id) && store == WithPair(old(store), id, pub, priv)
                             && history == old(history) + [Create(id, pub, priv)]
      // A failed call has left something behind exactly if the public object was created and
      // then the conversion or the private object failed.
      ensures blob.None? ==> (store != old(store) <==> createPub && !(converts && createPriv))
      ensures blob.None? && store != old(store) ==>
                store == old(store)[pub := Obj(id, PublicKey)] && history == old(history) + [CreateHalf(id, pub)]
      ensures store == old(store) ==> history == old(history)
      ensures OthersAlike(old(store), store, Some(id))
    {
      blob := None;
      OpenSubsession(session);
      var hPub := CreateObject(id, PublicKey, pub, createPub);
      var hPriv := 0;
      if hPub != 0 && converts {
        hPriv := CreateObject(id, PrivateKey, priv, createPriv);
        if hPriv != 0 {
          var saved := Save(id);
          blob := Some(saved[..]);
        }
      }
      if createPub {
        assert pub !in old(store) && pub in store;
        Remember(if blob.Some? then Create(id, pub, priv) else CreateHalf(id, pub));
      }
      LeaveScope(session, hPub, hPriv);
    }

    /** C_GenerateKeyPair: both objects and handles, or neither. */
    method GeneratePair(id: seq<Byte>, pub: nat, priv: nat, ok: bool) returns (hPub: nat, hPriv: nat)
      requires Sound() && state.Some?
      modifies this`trace, this`state, this`store, this`handles, this`nextHandle
      ensures Sound() && state == Some(With(With(old(state).value, hPub), hPriv))
      ensures store == if ok then WithPair(old(store), id, pub, priv) else old(store)
    {
      hPub, hPriv := 0, 0;
      if ok {
        store := WithPair(store, id, pub, priv);
        hPub := HandOut(pub);
        hPriv := HandOut(priv);
      }
    }

    /** tee_generate_keypair: both objects in one call of the token. */
    method GenerateKeypair(id: seq<Byte>, pub: nat, priv: nat, session: bool, generate: bool)
      returns (blob: Option<seq<Byte>>)
      requires Valid() && |id| == ID_LENGTH && id !in used && pub != priv && pub !in store && priv !in store
      modifies this
      ensures Valid()
      ensures blob.Some? <==> generate
      ensures blob.Some? ==> blob.value == Encode(id) && store == WithPair(old(store), id, pub, priv)
                             && history == old(history) + [Create(id, pub, priv)]
      ensures blob.None? ==> store == old(store) && history == old(history)
      ensures OthersAlike(old(store), store, Some(id))
    {
      blob := None;
      OpenSubsession(session);
      var hPub, hPriv := GeneratePair(id, pub, priv, generate);
      if generate {
        var saved := Save(id);
        blob := Some(saved[..]);
        Remember(Create(id, pub, priv));
      }
      LeaveScope(session, hPub, hPriv);
    }
  }

  // ---------- what holds of every token ----------

  /** A key that was generated or imported and not deleted since resolves to its own pair and no
      other, in the token as it is now. */
  lemma TokenKeepsKeys(token: Token, k: nat)
    requires token.Valid() && k < |token.history| && token.history[k].Create?
    requires forall j :: k < j < |token.history| ==> !Deletes(token.history[j], token.history[k].id)
    ensures var op := token.history[k];
            forall pub, priv :: ResolvesTo(token.store, Encode(op.id), pub, priv) <==> pub == op.pub && priv == op.priv
  {
    KeyKeepsResolving(token.history, k);
  }

  /** Between operations every handle that the token ever handed out has been closed, every search
      ended and every subsession closed, each exactly once, and the rules were kept all along. */
  lemma TokenKeepsRules(token: Token, h: nat)
    requires token.Valid()
    ensures Count(token.trace, Obtain(h)) == Count(token.trace, CloseHandle(h))
    ensures Count(token.trace, StartSearch) == Count(token.trace, EndSearch)
    ensures Count(token.trace, OpenSession) == Count(token.trace, CloseSession)
    ensures forall i :: 0 <= i < |token.trace| && token.trace[i].CloseSession? ==>
              Count(token.trace[..i], Obtain(h)) == Count(token.trace[..i], CloseHandle(h))
  {
    HandleBalance(token.trace, h);
    SessionBalance(token.trace);
    forall i | 0 <= i < |token.trace| && token.trace[i].CloseSession?
      ensures Count(token.trace[..i], Obtain(h)) == Count(token.trace[..i], CloseHandle(h))
    {
      RulesMean(token.trace, i);
    }
  }

  /** A key that was deleted, completely or by half, resolves no more. */
  lemma TokenForgetsKeys(token: Token, k: nat, blob: seq<Byte>)
    requires token.Valid() && k < |token.history| && (token.history[k].Delete? || token.history[k].DeleteHalf?)
    requires DecodeId(blob) == DecodeId(token.history[k].blob)
    ensures !Resolves(token.store, blob)
  {
    DeletedStaysDeleted(token.history, k, blob);
  }

  // ---------- operations that stop half way ----------

  /** For every ID: a key is generated, and the token answers the delete well but refuses to
      destroy the public object.  The delete fails, and yet the key is gone; a second delete
      fails however well the token answers, and the public object stays. */
  method HalfDelete(id: seq<Byte>) returns (first: bool, second: bool, before: Store, after: Store)
    requires |id| == ID_LENGTH
    ensures !first && !second
    ensures before == WithPair(map[], id, 1, 2) && after == map[1 := Obj(id, PublicKey)]
    ensures Resolves(before, Encode(id)) && !Resolves(after, Encode(id))
  {
    var token := new Token();
    var blob := token.GenerateKeypair(id, 1, 2, true, true);
    before := token.store;
    RoundTrip(id);
    assert ResolvesTo(before, Encode(id), 1, 2);
    ghost var pub, priv;
    first, pub, priv := token.DeleteKeypair(blob, ALL_WELL, true, false);
    assert pub == 1 && priv == 2;
    TokenForgetsKeys(token, 1, Encode(id));
    second, pub, priv := token.DeleteKeypair(blob, ALL_WELL, true, true);
    after := token.store;
  }

  /** For every ID: the token creates the public object and refuses the private one.  The import
      fails, and the public object stays although no blob was returned. */
  method HalfImport(id: seq<Byte>) returns (blob: Option<seq<Byte>>, after: Store)
    requires |id| == ID_LENGTH
    ensures blob.None? && after == map[1 := Obj(id, PublicKey)]
  {
    var token := new Token();
    blob := token.ImportKeypair(id, 1, 2, true, true, true, false);
    after := token.store;
  }
}
