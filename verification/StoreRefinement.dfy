/** The interleaved store and the object agree: a call whose statements run without interruption leaves the
    tables that the object's method promises (internal/coord/store.go, internal/coord/keys.go). */
module StoreRefinement {
  import opened Wire
  import opened StoreModel
  import opened StoreProtocol
  import opened StoreInvariant
  import Store

  /** A call advances; new ids are `key` and `mid`. */
  ghost function Forward(s: State, k: CallId, key: KeyId, mid: MachineId): State {
    Step(s, Advance(k, key, mid))
  }

  /** RedeemPIN: its SELECT and its transaction. */
  lemma RedeemAlone(s: State, k: CallId, user: UserId, entered: Option<Pin>, now: int)
    requires k !in s.calls
    ensures var r := Select(s.t, entered, now);
            var s' := Step(s, Redeem(k, user, entered, now));
            if r.Accepted? then
              && Forward(s', k, 0, "").t == Commit(s.t, user, r.mid, r.invite)
              && Forward(s', k, 0, "").calls == s.calls
            else s' == s
  {
    var r := Select(s.t, entered, now);
    if r.Accepted? {
      assert s.calls[k := Redeeming(user, r.mid, r.invite)] - {k} == s.calls;
    }
  }

  // ----- Retiring -----

  /** The two statements of RetireMachine, with a key still to get a machine or not. */
  lemma RetireAlone(s: State, k: CallId, m: MachineId, heir: Option<Heir>)
    requires k in s.calls && s.calls[k] == RetiringInvites(m, heir)
    ensures var s' := Forward(Forward(s, k, 0, ""), k, 0, "");
            && s'.t == Retire(s.t, m)
            && s'.calls == (if heir.Some? then s.calls[k := Remaking(heir.value)] else s.calls - {k})
  {
    var s1 := Forward(s, k, 0, "");
    assert s1.calls[k] == RetiringBindings(m, heir);
  }

  /** Looking up the revoked key's machine and retiring it. */
  lemma FindAndRetire(s: State, k: CallId, key: KeyId, m: MachineId, heir: Option<Heir>)
    requires k in s.calls && s.calls[k] == Finding(key, heir) && MachineOf(s.t, key) == Some(m)
    ensures var s' := Forward(Forward(Forward(s, k, 0, ""), k, 0, ""), k, 0, "");
            && s'.t == Retire(s.t, m)
            && s'.calls == (if heir.Some? then s.calls[k := Remaking(heir.value.(name := s.t.machines[m].name))] else s.calls - {k})
  {
    var named := if heir.Some? then Some(heir.value.(name := s.t.machines[m].name)) else None;
    var s1 := Forward(s, k, 0, "");
    assert s1 == s.(calls := s.calls[k := RetiringInvites(m, named)]);
    RetireAlone(s1, k, m, named);
  }

  /** handleRevokeKey on a provider key that has a machine: four statements. */
  lemma RevokeAlone(s: State, k: CallId, user: UserId, key: KeyId, m: MachineId)
    requires TablesOK(s.t) && k !in s.calls && CanRevokeKey(s.t, user, key) && s.t.keys[key].provider && MachineOf(s.t, key) == Some(m)
    ensures var s' := Forward(Forward(Forward(Step(s, Revoke(k, user, key)), k, 0, ""), k, 0, ""), k, 0, "");
            s'.t == Retire(RevokeKey(s.t, user, key), m) && s'.calls == s.calls
  {
    var s1 := Step(s, Revoke(k, user, key));
    assert HasKey(s.t, m, key);
    Store.MachineOfRevoked(s.t, user, key);
    FindAndRetire(s1, k, key, m, None);
    assert s.calls[k := Finding(key, None)] - {k} == s.calls;
  }

  // ----- Regenerating -----

  /** The upsert of a key without a machine: its SELECT and its INSERT. */
  lemma RemakeAlone(s: State, k: CallId, h: Heir, candidate: MachineId)
    requires k in s.calls && s.calls[k] == Remaking(h) && MachineOf(s.t, h.key) == None && h.key in s.t.keys
    ensures var s' := Forward(Forward(s, k, 0, candidate), k, 0, "");
            s'.t == Store.Upserted(s.t, h.owner, h.key, h.name, candidate) && s'.calls == s.calls - {k}
  {
    var s1 := Forward(s, k, 0, candidate);
    assert s1 == s.(calls := s.calls[k := Inserting(h.owner, h.key, h.name, candidate)]);
  }

  /** Minting the new key, after the old one was revoked. */
  lemma MintAlone(s: State, k: CallId, user: UserId, key: KeyId, heir: KeyId)
    requires k in s.calls && s.calls[k] == Minting(user, key, true) && heir !in s.t.keys
    ensures Forward(s, k, heir, "")
         == State(CreateKey(s.t, heir, user, true), s.calls[k := Finding(key, Some(Heir(user, heir, "machine")))],
                  s.log.(heirs := s.log.heirs[key := heir]))
  {
  }

  lemma RevokeToRegenerate(s: State, k: CallId, user: UserId, key: KeyId)
    requires k !in s.calls && CanRevokeKey(s.t, user, key) && s.t.keys[key].provider
    ensures var s' := Step(s, Regenerate(k, user, key));
            s'.t == RevokeKey(s.t, user, key) && s'.calls == s.calls[k := Minting(user, key, true)]
  {
  }

  // The first five statements of handleRegenerateKey: revoke, mint, find, retire invites, retire bindings.
  ghost function Replaced(s: State, k: CallId, user: UserId, key: KeyId, heir: KeyId): State {
    Forward(Forward(Forward(Forward(Step(s, Regenerate(k, user, key)), k, heir, ""), k, 0, ""), k, 0, ""), k, 0, "")
  }

  lemma ReplaceAlone(s: State, k: CallId, user: UserId, key: KeyId, heir: KeyId, m: MachineId)
    requires TablesOK(s.t) && k !in s.calls && CanRevokeKey(s.t, user, key) && s.t.keys[key].provider
    requires MachineOf(s.t, key) == Some(m) && heir !in s.t.keys
    ensures var minted := CreateKey(RevokeKey(s.t, user, key), heir, user, true);
            var s' := Replaced(s, k, user, key, heir);
            && MachineOf(minted, key) == Some(m) && m in minted.machines
            && s'.t == Retire(minted, m)
            && s'.calls == s.calls[k := Remaking(Heir(user, heir, minted.machines[m].name))]
  {
    KeyReplaced(s.t, user, key, heir, m);
    RevokeToRegenerate(s, k, user, key);
    var s1 := Step(s, Regenerate(k, user, key));
    MintAlone(s1, k, user, key, heir);
    FindAndRetire(Forward(s1, k, heir, ""), k, key, m, Some(Heir(user, heir, "machine")));
  }

  lemma KeyReplaced(t: Tables, user: UserId, key: KeyId, heir: KeyId, m: MachineId)
    requires TablesOK(t) && CanRevokeKey(t, user, key) && MachineOf(t, key) == Some(m) && heir !in t.keys
    ensures MachineOf(CreateKey(RevokeKey(t, user, key), heir, user, true), key) == Some(m)
    ensures heir !in RevokeKey(t, user, key).keys
  {
    Store.MachineOfRevoked(t, user, key);
    RevokeKeyOK(t, user, key);
    Store.MachineOfMinted(RevokeKey(t, user, key), heir, user, true, key);
  }

  /** handleRegenerateKey on a provider key that has a machine: seven statements. */
  lemma RegenerateAlone(s: State, k: CallId, user: UserId, key: KeyId, heir: KeyId, m: MachineId, candidate: MachineId)
    requires TablesOK(s.t) && k !in s.calls && CanRevokeKey(s.t, user, key) && s.t.keys[key].provider
    requires MachineOf(s.t, key) == Some(m) && heir !in s.t.keys
    ensures var s' := Forward(Forward(Replaced(s, k, user, key, heir), k, 0, candidate), k, 0, "");
            s'.t == Store.Regenerated(s.t, user, key, heir, candidate) && s'.calls == s.calls
  {
    var minted := CreateKey(RevokeKey(s.t, user, key), heir, user, true);
    ReplaceAlone(s, k, user, key, heir, m);
    var s5 := Replaced(s, k, user, key, heir);
    NoMachineYet(s.t, user, key, heir, m);
    RemakeAlone(s5, k, Heir(user, heir, minted.machines[m].name), candidate);
    assert s.calls[k := Remaking(Heir(user, heir, minted.machines[m].name))] - {k} == s.calls;
  }

  lemma NoMachineYet(t: Tables, user: UserId, key: KeyId, heir: KeyId, m: MachineId)
    requires TablesOK(t) && CanRevokeKey(t, user, key) && heir !in t.keys
    ensures MachineOf(Retire(CreateKey(RevokeKey(t, user, key), heir, user, true), m), heir) == None
  {
    RevokeKeyOK(t, user, key);
    Store.MachineOfMinted(RevokeKey(t, user, key), heir, user, true, key);
    var minted := CreateKey(RevokeKey(t, user, key), heir, user, true);
    assert forall x :: HasKey(Retire(minted, m), x, heir) ==> HasKey(minted, x, heir);
  }
}
