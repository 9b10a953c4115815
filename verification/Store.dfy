/** The store as an object whose calls run to completion (internal/coord/store.go), and the two key handlers
    that sequence them (internal/coord/keys.go). StoreProtocol lets the statements of such calls interleave. */
module Store {
  import opened Wire
  import opened StoreModel
  import opened StoreInvariant

  /** What ListAccessibleMachines returns: the rows with role "owner", then those with role "member". */
  datatype Accessible = Accessible(owned: seq<MachineId>, joined: seq<MachineId>)

  /** Revoking a key leaves its machine where it is. */
  lemma MachineOfRevoked(t: Tables, user: UserId, key: KeyId)
    requires TablesOK(t) && CanRevokeKey(t, user, key)
    ensures MachineOf(StoreModel.RevokeKey(t, user, key), key) == MachineOf(t, key)
  {
    var t' := StoreModel.RevokeKey(t, user, key);
    assert forall m :: HasKey(t', m, key) <==> HasKey(t, m, key);
  }

  /** A new key has no machine, and changes nobody's. */
  lemma MachineOfMinted(t: Tables, id: KeyId, user: UserId, provider: bool, key: KeyId)
    requires TablesOK(t) && id !in t.keys
    ensures MachineOf(StoreModel.CreateKey(t, id, user, provider), id) == None
    ensures MachineOf(StoreModel.CreateKey(t, id, user, provider), key) == MachineOf(t, key)
  {
    var t' := StoreModel.CreateKey(t, id, user, provider);
    assert forall m, k :: HasKey(t', m, k) <==> HasKey(t, m, k);
  }

  /** Nobody, the owner included, may access a machine whose key was revoked and which was then retired. */
  lemma NobodyAccesses(t: Tables, user: UserId, key: KeyId, m: MachineId, u: UserId)
    requires CanRevokeKey(t, user, key) && HasKey(t, m, key)
    ensures !CanAccess(Retire(StoreModel.RevokeKey(t, user, key), m), u, m)
  {
  }

  /** An upsert for a key that has no machine. */
  function Upserted(t: Tables, owner: UserId, key: KeyId, name: string, candidate: MachineId): Tables {
    if candidate in t.machines then t else Inserted(t, candidate, owner, key, name)
  }

  /** The old machine is retired before the new key gets one, under the same name. */
  function Succeeded(t: Tables, user: UserId, heir: KeyId, was: Option<MachineId>, candidate: MachineId): Tables
    requires was.Some? ==> was.value in t.machines
  {
    match was
    case None => Upserted(t, user, heir, "machine", candidate)
    case Some(m) => Upserted(Retire(t, m), user, heir, t.machines[m].name, candidate)
  }

  /** What handleRegenerateKey does to the tables. */
  ghost function Regenerated(t: Tables, user: UserId, key: KeyId, heir: KeyId, candidate: MachineId): Tables
    requires key in t.keys
  {
    var minted := StoreModel.CreateKey(StoreModel.RevokeKey(t, user, key), heir, user, t.keys[key].provider);
    if !t.keys[key].provider then minted else Succeeded(minted, user, heir, MachineOf(t, key), candidate)
  }

  function Gone(was: Option<MachineId>): set<MachineId> {
    if was.Some? then {was.value} else {}
  }

  // ----- What the listing makes of each statement -----

  lemma RevokeListing(t: Tables, user: UserId, key: KeyId, u: UserId)
    requires TablesOK(t) && CanRevokeKey(t, user, key)
    ensures var t' := StoreModel.RevokeKey(t, user, key);
            && Owned(t', u) == Owned(t, u) - Gone(MachineOf(t, key))
            && Joined(t', u) == Joined(t, u) - Gone(MachineOf(t, key))
  {
    var t' := StoreModel.RevokeKey(t, user, key);
    forall m | m in t.machines
      ensures LiveKey(t', m) <==> LiveKey(t, m) && m !in Gone(MachineOf(t, key))
    {
      assert HasKey(t, m, t.machines[m].key);
    }
  }

  lemma MintListing(t: Tables, id: KeyId, user: UserId, provider: bool, u: UserId)
    requires TablesOK(t) && id !in t.keys
    ensures var t' := StoreModel.CreateKey(t, id, user, provider); Owned(t', u) == Owned(t, u) && Joined(t', u) == Joined(t, u)
  {
  }

  lemma RetireListing(t: Tables, m: MachineId, u: UserId)
    ensures Owned(Retire(t, m), u) == Owned(t, u) && Joined(Retire(t, m), u) == Joined(t, u) - {m}
    ensures !LiveKeyed(t, m) ==> !CanAccess(Retire(t, m), u, m)
  {
  }

  predicate LiveKeyed(t: Tables, m: MachineId) {
    m in t.machines && LiveKey(t, m)
  }

  lemma InsertListing(t: Tables, m: MachineId, owner: UserId, key: KeyId, name: string, u: UserId)
    requires TablesOK(t) && m !in t.machines && key in t.keys && !t.keys[key].revoked
    ensures var t' := Inserted(t, m, owner, key, name);
            && Owned(t', u) == Owned(t, u) + (if u == owner then {m} else {})
            && Joined(t', u) == Joined(t, u)
            && forall x :: x in t.machines ==> CanAccess(t', u, x) == CanAccess(t, u, x)
  {
    assert (m, u) in t.bindings ==> BindingOK(t, m, u, t.bindings[(m, u)]);
  }

  lemma SucceededListing(t: Tables, user: UserId, heir: KeyId, was: Option<MachineId>, candidate: MachineId, u: UserId)
    requires TablesOK(t) && candidate !in t.machines && heir in t.keys && !t.keys[heir].revoked
    requires was.Some? ==> was.value in t.machines && !LiveKeyed(t, was.value)
    ensures var t' := Succeeded(t, user, heir, was, candidate);
            && Owned(t', u) == Owned(t, u) + (if u == user then {candidate} else {})
            && Joined(t', u) == Joined(t, u) - Gone(was)
            && (was.Some? ==> !CanAccess(t', u, was.value))
            && candidate in t'.machines
            && (was.Some? && t.machines[was.value].name != "" ==> t'.machines[candidate].name == t.machines[was.value].name)
  {
    match was {
      case None => InsertListing(t, candidate, user, heir, "machine", u);
      case Some(m) =>
        RetireListing(t, m, u);
        RetireInvitesOK(t, m);
        RetireBindingsOK(RetireInvites(t, m), m);
        InsertListing(Retire(t, m), candidate, user, heir, t.machines[m].name, u);
    }
  }

  /** Regeneration replaces the old machine by the new one in the owner's listing and changes nobody else's,
      ends every membership of the old machine and no other, and keeps the name. */
  lemma RegenerationSwaps(t: Tables, user: UserId, key: KeyId, heir: KeyId, candidate: MachineId, u: UserId)
    requires TablesOK(t) && CanRevokeKey(t, user, key) && t.keys[key].provider
    requires heir !in t.keys && candidate !in t.machines
    ensures var t' := Regenerated(t, user, key, heir, candidate);
            var was := MachineOf(t, key);
            && candidate in t'.machines
            && Owned(t', u) == Owned(t, u) - Gone(was) + (if u == user then {candidate} else {})
            && Joined(t', u) == Joined(t, u) - Gone(was)
            && (was.Some? ==> !CanAccess(t', u, was.value))
            && (was.Some? && t.machines[was.value].name != "" ==> t'.machines[candidate].name == t.machines[was.value].name)
  {
    var revoked := StoreModel.RevokeKey(t, user, key);
    RevokeListing(t, user, key, u);
    RevokeKeyOK(t, user, key);
    MintListing(revoked, heir, user, true, u);
    CreateKeyOK(revoked, heir, user, true);
    SucceededListing(StoreModel.CreateKey(revoked, heir, user, true), user, heir, MachineOf(t, key), candidate, u);
  }

  // ----- Scanning rows -----

  lemma ScanOne(rows: set<MachineId>, todo: set<MachineId>, m: MachineId)
    requires m in todo
    ensures m in rows ==> multiset(rows - (todo - {m})) == multiset(rows - todo) + multiset{m}
    ensures m !in rows ==> rows - (todo - {m}) == rows - todo
  {
    if m in rows {
      assert rows - (todo - {m}) == (rows - todo) + {m};
    } else {
      assert rows - (todo - {m}) == rows - todo;
    }
  }

  lemma OwnedScan(t: Tables, user: UserId)
    ensures Owned(t, user) - t.machines.Keys == {} && Owned(t, user) - {} == Owned(t, user)
  {
  }

  /** The machines of a user's rows among some bindings. */
  function Machines(rows: set<(MachineId, UserId)>, user: UserId): set<MachineId> {
    set b | b in rows && b.1 == user :: b.0
  }

  lemma MachinesOne(rows: set<(MachineId, UserId)>, user: UserId, b: (MachineId, UserId))
    requires b in rows
    ensures Machines(rows - {b}, user) == if b.1 == user then Machines(rows, user) - {b.0} else Machines(rows, user)
    ensures b.1 == user ==> b.0 in Machines(rows, user)
  {
    forall m
      ensures m in Machines(rows - {b}, user) <==> (m in Machines(rows, user) && !(b.1 == user && m == b.0))
    {
      if m in Machines(rows, user) {
        assert (m, user) in rows;
      }
    }
  }

  lemma JoinedScan(t: Tables, user: UserId)
    ensures Joined(t, user) - Machines(t.bindings.Keys, user) == {} && Joined(t, user) - Machines({}, user) == Joined(t, user)
  {
    forall m | m in Joined(t, user)
      ensures m in Machines(t.bindings.Keys, user)
    {
      assert (m, user) in t.bindings.Keys;
    }
  }

  lemma SameMembers(out: seq<MachineId>, rows: set<MachineId>)
    requires multiset(out) == multiset(rows)
    ensures forall m :: m in out <==> m in rows
  {
    assert forall m :: m in out <==> m in multiset(out);
  }

  class Database {
    var keys: map<KeyId, Key>
    var machines: map<MachineId, Machine>
    var invites: map<InviteId, Invite>
    var bindings: map<(MachineId, UserId), Binding>
    var nextKey: KeyId
    var nextInvite: InviteId

    ghost function Rows(): Tables
      reads this
    {
      Tables(keys, machines, invites, bindings)
    }

    ghost predicate Valid()
      reads this
    {
      && TablesOK(Rows())
      && (forall k :: k in keys ==> k < nextKey) && (forall i :: i in invites ==> i < nextInvite)
    }

    constructor ()
      ensures Valid() && Rows() == NO_ROWS
    {
      keys, machines, invites, bindings := map[], map[], map[], map[];
      nextKey, nextInvite := 1, 1;
    }

    // ----- Keys -----

    method CreateKey(user: UserId, provider: bool) returns (id: KeyId)
      requires Valid()
      modifies this
      ensures Valid() && id !in old(keys) && Rows() == StoreModel.CreateKey(old(Rows()), id, user, provider)
      ensures keys == old(keys)[id := Key(user, provider, false)]
    {
      id := nextKey;
      CreateKeyOK(Rows(), id, user, provider);
      nextKey := nextKey + 1;
      keys := keys[id := Key(user, provider, false)];
    }

    method RevokeKey(user: UserId, key: KeyId) returns (ok: bool)
      requires Valid()
      modifies this
      ensures Valid() && (ok <==> key in old(keys) && old(keys)[key].user == user && !old(keys)[key].revoked)
      ensures Rows() == StoreModel.RevokeKey(old(Rows()), user, key)
      ensures keys == if ok then old(keys)[key := old(keys)[key].(revoked := true)] else old(keys)
    {
      RevokeKeyOK(Rows(), user, key);
      ok := key in keys && keys[key].user == user && !keys[key].revoked;
      if ok {
        keys := keys[key := keys[key].(revoked := true)];
      }
    }

    // ----- Machines -----

    method GetMachineByProviderKeyID(key: KeyId) returns (r: Option<MachineId>)
      requires Valid()
      ensures r == MachineOf(Rows(), key)
    {
      var todo := machines.Keys;
      while todo != {}
        invariant todo <= machines.Keys
        invariant forall m :: m in machines && m !in todo ==> machines[m].key != key
      {
        var m :| m in todo;
        if machines[m].key == key {
          assert HasKey(Rows(), m, key);
          return Some(m);
        }
        todo := todo - {m};
      }
      r := None;
    }

    method UpsertMachineByProviderKey(owner: UserId, key: KeyId, name: string, candidate: MachineId) returns (r: Option<MachineId>)
      requires Valid()
      modifies this
      ensures Valid()
      ensures match MachineOf(old(Rows()), key)
              case Some(m) => r == Some(m) && Rows() == Renamed(old(Rows()), m, name)
              case None =>
                if candidate in old(machines) || key !in old(keys) then r == None && Rows() == old(Rows())
                else r == Some(candidate) && Rows() == Inserted(old(Rows()), candidate, owner, key, name)
      ensures r.Some? ==> r.value in machines && machines[r.value].key == key
      ensures r.Some? && name != "" ==> machines[r.value].name == name
      ensures r.Some? && r.value in old(machines) ==>
        machines[r.value].owner == old(machines)[r.value].owner && (name == "" ==> machines[r.value].name == old(machines)[r.value].name)
      ensures r.Some? && r.value !in old(machines) ==> machines[r.value].owner == owner && (name == "" ==> machines[r.value].name == "machine")
      ensures forall m :: m in old(machines) && r != Some(m) ==> m in machines && machines[m] == old(machines)[m]
    {
      var existing := GetMachineByProviderKeyID(key);
      if existing.Some? {
        var m := existing.value;
        RenamedOK(Rows(), m, name);
        if name != "" && name != machines[m].name {
          machines := machines[m := machines[m].(name := name)];
        }
        assert Rows() == Renamed(old(Rows()), m, name);
        return Some(m);
      }
      if candidate in machines || key !in keys {
        // The INSERT fails on a constraint, and a second look finds no machine either.
        return None;
      }
      InsertedOK(Rows(), candidate, owner, key, name);
      machines := machines[candidate := Machine(owner, key, if name == "" then "machine" else name)];
      return Some(candidate);
    }

    method RetireMachine(m: MachineId)
      requires Valid()
      modifies this
      ensures Valid() && Rows() == Retire(old(Rows()), m)
      ensures forall i :: i in old(invites) ==> i in invites && (invites[i].revoked <==> old(invites)[i].revoked || old(invites)[i].mid == m)
      ensures forall b :: b in old(bindings) ==> b in bindings && (bindings[b].revoked <==> old(bindings)[b].revoked || b.0 == m)
    {
      RetireInvitesOK(Rows(), m);
      RetireBindingsOK(RetireInvites(Rows(), m), m);
      invites := map i | i in invites :: if invites[i].mid == m then invites[i].(revoked := true) else invites[i];
      bindings := map b | b in bindings :: if b.0 == m then bindings[b].(revoked := true) else bindings[b];
    }

    // ----- Access -----

    method CanAccessMachine(user: UserId, m: MachineId) returns (ok: bool)
      ensures ok == CanAccess(Rows(), user, m)
      ensures m !in machines ==> !ok
      ensures m in machines && machines[m].owner == user ==> (ok <==> machines[m].key in keys && !keys[machines[m].key].revoked)
      ensures m in machines && machines[m].owner != user ==> (ok <==> (m, user) in bindings && !bindings[(m, user)].revoked)
    {
      if m !in machines {
        return false;
      }
      if machines[m].owner == user {
        if machines[m].key !in keys {
          return false;
        }
        return !keys[machines[m].key].revoked;
      }
      ok := (m, user) in bindings && !bindings[(m, user)].revoked;
    }

    method ListMachinesByOwner(user: UserId) returns (out: seq<MachineId>)
      ensures multiset(out) == multiset(Owned(Rows(), user))
      ensures forall m :: m in out <==> m in machines && machines[m].owner == user && machines[m].key in keys && !keys[machines[m].key].revoked
    {
      out := [];
      var todo := machines.Keys;
      OwnedScan(Rows(), user);
      while todo != {}
        invariant todo <= machines.Keys
        invariant multiset(out) == multiset(Owned(Rows(), user) - todo)
      {
        var m :| m in todo;
        ScanOne(Owned(Rows(), user), todo, m);
        if machines[m].owner == user && machines[m].key in keys && !keys[machines[m].key].revoked {
          out := out + [m];
        }
        todo := todo - {m};
      }
      SameMembers(out, Owned(Rows(), user));
    }

    method ListAccessibleMachines(user: UserId) returns (r: Accessible)
      ensures multiset(r.owned) == multiset(Owned(Rows(), user))
      ensures multiset(r.joined) == multiset(Joined(Rows(), user))
      ensures forall m :: m in r.joined <==>
        (&& m in machines && machines[m].key in keys && !keys[machines[m].key].revoked
         && (m, user) in bindings && !bindings[(m, user)].revoked)
    {
      var owned := ListMachinesByOwner(user);
      var joined := ListJoined(user);
      SameMembers(joined, Joined(Rows(), user));
      r := Accessible(owned, joined);
    }

    // The second query: the rows of bindings, joined with their machines and keys.
    method ListJoined(user: UserId) returns (out: seq<MachineId>)
      ensures multiset(out) == multiset(Joined(Rows(), user))
    {
      out := [];
      var todo := bindings.Keys;
      JoinedScan(Rows(), user);
      while todo != {}
        invariant todo <= bindings.Keys
        invariant multiset(out) == multiset(Joined(Rows(), user) - Machines(todo, user))
      {
        var b :| b in todo;
        MachinesOne(todo, user, b);
        if b.1 == user {
          ScanOne(Joined(Rows(), user), Machines(todo, user), b.0);
          if b.0 in machines && !bindings[b].revoked && machines[b.0].key in keys && !keys[machines[b.0].key].revoked {
            out := out + [b.0];
          }
        }
        todo := todo - {b};
      }
    }

    // ----- Invites -----

    method FindInvite(pin: Pin) returns (r: Option<InviteId>)
      ensures r.Some? ==> HasPin(Rows(), r.value, pin)
      ensures r.None? ==> forall i :: !HasPin(Rows(), i, pin)
      ensures r.None? ==> forall i :: i in invites ==> invites[i].pin != pin
    {
      var todo := invites.Keys;
      while exists i :: i in todo
        decreases todo
        invariant todo <= invites.Keys
        invariant forall i :: i in invites && i !in todo ==> invites[i].pin != pin
      {
        var i :| i in todo;
        if invites[i].pin == pin {
          return Some(i);
        }
        todo := todo - {i};
      }
      r := None;
    }

    method CreateInvite(m: MachineId, owner: UserId, maxUses: int, ttlDays: int, pin: Pin, now: int) returns (r: Option<InviteId>)
      requires Valid()
      modifies this
      ensures Valid() && (r.Some? <==> CanInvite(old(Rows()), m, owner, pin))
      ensures r.Some? ==> m in machines && machines[m].owner == owner && forall i :: i in old(invites) ==> old(invites)[i].pin != pin
      ensures r.Some? ==> r.value !in old(invites) && r.value in invites
      ensures r.Some? ==>
        var v := invites[r.value];
        && v.mid == m && v.owner == owner && v.pin == pin && v.uses == 0 && !v.revoked
        && (1 <= maxUses <= 10 ==> v.max == maxUses) && (maxUses < 1 ==> v.max == 1) && (maxUses > 10 ==> v.max == 10)
        && v.expires == now + 86_400 * (if ttlDays >= 1 then ttlDays else 7)
      ensures r.Some? ==> Rows() == StoreModel.CreateInvite(old(Rows()), r.value, m, owner, maxUses, ttlDays, pin, now)
      ensures r.None? ==> Rows() == old(Rows())
    {
      if m !in machines || machines[m].owner != owner {
        return None;
      }
      var uses := maxUses;
      if uses < 1 {
        uses := 1;
      }
      if uses > MAX_USES {
        uses := MAX_USES;
      }
      var days := ttlDays;
      if days < 1 {
        days := DEFAULT_DAYS;
      }
      var taken := FindInvite(pin);
      if taken.Some? {
        assert HasPin(Rows(), taken.value, pin);
        return None;
      }
      assert forall i :: !HasPin(Rows(), i, pin);
      CreateInviteOK(Rows(), nextInvite, m, owner, maxUses, ttlDays, pin, now);
      r := Some(nextInvite);
      nextInvite := nextInvite + 1;
      invites := invites[r.value := Invite(m, owner, pin, uses, 0, now + days * SECONDS_PER_DAY, false)];
    }

    method RevokeInvite(owner: UserId, i: InviteId) returns (ok: bool)
      requires Valid()
      modifies this
      ensures Valid() && (ok <==> i in old(invites) && old(invites)[i].owner == owner && !old(invites)[i].revoked)
      ensures ok ==> i in invites && invites[i].revoked
      ensures Rows() == StoreModel.RevokeInvite(old(Rows()), owner, i)
    {
      RevokeInviteOK(Rows(), owner, i);
      ok := i in invites && invites[i].owner == owner && !invites[i].revoked;
      if ok {
        invites := invites[i := invites[i].(revoked := true)];
      }
    }

    /** The SELECT of RedeemPIN and the checks on the row it finds. */
    method SelectInvite(entered: Option<Pin>, now: int) returns (r: Redeemed)
      requires Valid()
      ensures r == Select(Rows(), entered, now)
    {
      if entered.None? {
        return Refused(InvalidPin);
      }
      var found := FindInvite(entered.value);
      if found.None? {
        return Refused(InvalidPin);
      }
      var i := found.value;
      assert forall j :: HasPin(Rows(), j, entered.value) ==> j == i;
      var v := invites[i];
      if v.revoked {
        return Refused(RevokedPin);
      }
      if now > v.expires {
        return Refused(ExpiredPin);
      }
      if v.uses >= v.max {
        return Refused(Exhausted);
      }
      if v.mid !in machines {
        return Refused(MachineGone);
      }
      return Accepted(v.mid, i);
    }

    /** The update, or the transaction, that follows. */
    method CommitRedeem(user: UserId, m: MachineId, i: InviteId) returns (ok: bool)
      requires Valid() && m in machines && i in invites && invites[i].mid == m
      modifies this
      ensures Valid() && ok == Commits(old(Rows()), user, m, i) && Rows() == Commit(old(Rows()), user, m, i)
    {
      CommitOK(Rows(), user, m, i);
      if machines[m].owner == user {
        if invites[i].uses < invites[i].max {
          invites := invites[i := invites[i].(uses := invites[i].uses + 1)];
        }
        return true;
      }
      if invites[i].uses >= invites[i].max || invites[i].revoked {
        return false;
      }
      invites := invites[i := invites[i].(uses := invites[i].uses + 1)];
      bindings := bindings[(m, user) := Binding(i, false)];
      return true;
    }

    /** Undisturbed, a redeem that passes its checks succeeds: one use more, and an active binding for a
        member. A refused one changes nothing. */
    method RedeemPIN(user: UserId, entered: Option<Pin>, now: int) returns (r: Redeemed)
      requires Valid()
      modifies this
      ensures Valid() && r == Select(old(Rows()), entered, now)
      ensures r.Refused? ==> Rows() == old(Rows())
      ensures r.Accepted? ==> Rows() == Commit(old(Rows()), user, r.mid, r.invite)
      ensures r.Accepted? ==> r.invite in invites && invites[r.invite].uses == old(invites)[r.invite].uses + 1
      ensures r.Accepted? && !IsOwner(Rows(), user, r.mid) ==> CanAccess(Rows(), user, r.mid)
    {
      r := SelectInvite(entered, now);
      if r.Refused? {
        return;
      }
      var ok := CommitRedeem(user, r.mid, r.invite);
      if !ok {
        return Refused(Exhausted);
      }
    }

    // ----- Bindings -----

    method RevokeBindingByMember(user: UserId, m: MachineId) returns (ok: bool)
      requires Valid()
      modifies this
      ensures Valid() && ok == ActiveBinding(old(Rows()), m, user)
      ensures Rows() == RevokeBinding(old(Rows()), m, user) && !ActiveBinding(Rows(), m, user)
    {
      RevokeBindingOK(Rows(), m, user);
      ok := (m, user) in bindings && !bindings[(m, user)].revoked;
      if ok {
        bindings := bindings[(m, user) := bindings[(m, user)].(revoked := true)];
      }
    }

    method RevokeMemberByOwner(owner: UserId, m: MachineId, user: UserId) returns (ok: bool)
      requires Valid()
      modifies this
      ensures Valid() && ok == (IsOwner(old(Rows()), owner, m) && ActiveBinding(old(Rows()), m, user))
      ensures Rows() == RevokeMember(old(Rows()), owner, m, user)
    {
      ok := false;
      if m in machines && machines[m].owner == owner {
        ok := RevokeBindingByMember(user, m);
      }
    }

    // ----- The key handlers -----

    /** handleRevokeKey, up to its HTTP answer. The machine returned is the one to unregister. */
    method HandleRevokeKey(user: UserId, key: KeyId) returns (ok: bool, gone: Option<MachineId>)
      requires Valid()
      modifies this
      ensures Valid() && (ok <==> key in old(keys) && old(keys)[key].user == user && !old(keys)[key].revoked)
      ensures !ok ==> Rows() == old(Rows())
      ensures ok ==> key in keys && keys[key].revoked
      ensures ok ==> gone == (if old(keys)[key].provider then MachineOf(old(Rows()), key) else None)
      ensures ok && gone.None? ==> Rows() == StoreModel.RevokeKey(old(Rows()), user, key)
      ensures ok && gone.Some? ==> Rows() == Retire(StoreModel.RevokeKey(old(Rows()), user, key), gone.value)
      ensures ok && gone.Some? ==> forall u :: !CanAccess(Rows(), u, gone.value)
    {
      gone := None;
      if key !in keys || keys[key].user != user {
        return false, None;
      }
      var provider := keys[key].provider;
      ghost var before := Rows();
      ok := RevokeKey(user, key);
      if ok {
        MachineOfRevoked(before, user, key);
      }
      if ok && provider {
        gone := GetMachineByProviderKeyID(key);
        if gone.Some? {
          RetireMachine(gone.value);
          forall u
            ensures !CanAccess(Rows(), u, gone.value)
          {
            NobodyAccesses(before, user, key, gone.value, u);
          }
        }
      }
    }

    /** handleRegenerateKey, up to its HTTP answer. `candidate` is the machine id generated for the new key. */
    method HandleRegenerateKey(user: UserId, key: KeyId, candidate: MachineId)
        returns (ok: bool, heir: KeyId, gone: Option<MachineId>, made: Option<MachineId>)
      requires Valid()
      modifies this
      ensures Valid() && (ok <==> key in old(keys) && old(keys)[key].user == user && !old(keys)[key].revoked)
      ensures !ok ==> Rows() == old(Rows())
      ensures ok ==> key in keys && keys[key].revoked
      ensures ok ==> heir !in old(keys) && gone == (if old(keys)[key].provider then MachineOf(old(Rows()), key) else None)
      ensures ok ==> Rows() == Regenerated(old(Rows()), user, key, heir, candidate)
      ensures ok ==> heir in keys && keys[heir] == Key(user, old(keys)[key].provider, false)
      ensures ok && !old(keys)[key].provider ==> machines == old(machines) && invites == old(invites) && bindings == old(bindings)
      ensures ok && made.Some? ==> made.value == candidate && candidate !in old(machines) && HasKey(Rows(), candidate, heir)
    {
      heir, gone, made := 0, None, None;
      if key !in keys {
        return false, 0, None, None;
      }
      var provider := keys[key].provider;
      ghost var before := Rows();
      ok := RevokeKey(user, key);
      if !ok {
        return;
      }
      MachineOfRevoked(before, user, key);
      ghost var revoked := Rows();
      heir := CreateKey(user, provider);
      MachineOfMinted(revoked, heir, user, provider, key);
      if provider {
        gone := GetMachineByProviderKeyID(key);
        var name := "machine";
        if gone.Some? {
          name := machines[gone.value].name;
          RetireMachine(gone.value);
        }
        made := UpsertMachineByProviderKey(user, heir, name, candidate);
      }
    }
  }
}
