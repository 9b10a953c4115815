/** What every statement, and so every interleaving, keeps in the store. */
module StoreInvariant {
  import opened Wire
  import opened StoreModel
  import opened StoreProtocol

  // ----- The tables -----

  ghost predicate MachinesOK(t: Tables) {
    UniqueKeys(t) && forall m :: m in t.machines ==> t.machines[m].key in t.keys
  }

  /** The key of a machine is a provider key of its owner. The tables do not ask for that; the callers see to
      it. */
  ghost predicate OwnersOK(t: Tables) {
    forall m :: m in t.machines && t.machines[m].key in t.keys ==>
      t.keys[t.machines[m].key].provider && t.keys[t.machines[m].key].user == t.machines[m].owner
  }

  /** An invite belongs to the machine's owner, allows one to ten uses and has not had more. */
  predicate InviteOK(t: Tables, v: Invite) {
    v.mid in t.machines && v.owner == t.machines[v.mid].owner && 1 <= v.max <= MAX_USES && 0 <= v.uses <= v.max
  }

  ghost predicate InvitesOK(t: Tables) {
    UniquePins(t) && forall i :: i in t.invites ==> InviteOK(t, t.invites[i])
  }

  /** A binding came from an invite to its machine, and its member is not the machine's owner. */
  predicate BindingOK(t: Tables, m: MachineId, user: UserId, b: Binding) {
    m in t.machines && t.machines[m].owner != user && b.invite in t.invites && t.invites[b.invite].mid == m
  }

  ghost predicate BindingsOK(t: Tables) {
    forall m, u :: (m, u) in t.bindings ==> BindingOK(t, m, u, t.bindings[(m, u)])
  }

  ghost predicate TablesOK(t: Tables) {
    MachinesOK(t) && InvitesOK(t) && BindingsOK(t)
  }

  // ----- Nothing is deleted, and little changes -----

  /** Rows stay, with their keys; revocation is for good; uses only grow. */
  ghost predicate Grows(t: Tables, t': Tables) {
    && (forall k :: k in t.keys ==>
          k in t'.keys && t'.keys[k].user == t.keys[k].user && t'.keys[k].provider == t.keys[k].provider
          && (t.keys[k].revoked ==> t'.keys[k].revoked))
    && (forall m :: m in t.machines ==>
          m in t'.machines && t'.machines[m].owner == t.machines[m].owner && t'.machines[m].key == t.machines[m].key)
    && (forall i :: i in t.invites ==>
          i in t'.invites && t'.invites[i].mid == t.invites[i].mid && t'.invites[i].max == t.invites[i].max
          && t'.invites[i].owner == t.invites[i].owner && t'.invites[i].pin == t.invites[i].pin && t'.invites[i].expires == t.invites[i].expires
          && t'.invites[i].uses >= t.invites[i].uses && (t.invites[i].revoked ==> t'.invites[i].revoked))
    && (forall b :: b in t.bindings ==> b in t'.bindings)
  }

  // ----- The statements -----

  lemma CreateKeyOK(t: Tables, id: KeyId, user: UserId, provider: bool)
    requires TablesOK(t) && id !in t.keys
    ensures TablesOK(CreateKey(t, id, user, provider)) && Grows(t, CreateKey(t, id, user, provider))
  {
  }

  lemma RevokeKeyOK(t: Tables, user: UserId, key: KeyId)
    requires TablesOK(t)
    ensures TablesOK(RevokeKey(t, user, key)) && Grows(t, RevokeKey(t, user, key))
  {
  }

  lemma RenamedOK(t: Tables, m: MachineId, name: string)
    requires TablesOK(t) && m in t.machines
    ensures TablesOK(Renamed(t, m, name)) && Grows(t, Renamed(t, m, name))
  {
  }

  lemma InsertedOK(t: Tables, m: MachineId, owner: UserId, key: KeyId, name: string)
    requires TablesOK(t) && CanInsert(t, m, key)
    ensures TablesOK(Inserted(t, m, owner, key, name)) && Grows(t, Inserted(t, m, owner, key, name))
  {
    var t' := Inserted(t, m, owner, key, name);
    forall x, y | x in t'.machines && y in t'.machines && t'.machines[x].key == t'.machines[y].key
      ensures x == y
    {
      assert x != m ==> HasKey(t, x, t.machines[x].key);
      assert y != m ==> HasKey(t, y, t.machines[y].key);
    }
  }

  lemma CreateInviteOK(t: Tables, id: InviteId, m: MachineId, owner: UserId, maxUses: int, ttlDays: int, pin: Pin, now: int)
    requires TablesOK(t) && id !in t.invites
    ensures var t' := CreateInvite(t, id, m, owner, maxUses, ttlDays, pin, now); TablesOK(t') && Grows(t, t')
  {
    assert forall i :: i in t.invites ==> HasPin(t, i, t.invites[i].pin);
  }

  lemma RevokeInviteOK(t: Tables, owner: UserId, i: InviteId)
    requires TablesOK(t)
    ensures TablesOK(RevokeInvite(t, owner, i)) && Grows(t, RevokeInvite(t, owner, i))
  {
  }

  lemma UsedOK(t: Tables, i: InviteId)
    requires TablesOK(t) && i in t.invites && t.invites[i].uses < t.invites[i].max
    ensures TablesOK(Used(t, i)) && Grows(t, Used(t, i))
  {
  }

  lemma CommitOK(t: Tables, user: UserId, m: MachineId, i: InviteId)
    requires TablesOK(t) && i in t.invites && t.invites[i].mid == m
    ensures TablesOK(Commit(t, user, m, i)) && Grows(t, Commit(t, user, m, i))
  {
    if t.invites[i].uses < t.invites[i].max {
      UsedOK(t, i);
    }
  }

  lemma RevokeBindingOK(t: Tables, m: MachineId, user: UserId)
    requires TablesOK(t)
    ensures TablesOK(RevokeBinding(t, m, user)) && Grows(t, RevokeBinding(t, m, user))
  {
  }

  lemma RetireInvitesOK(t: Tables, m: MachineId)
    requires TablesOK(t)
    ensures TablesOK(RetireInvites(t, m)) && Grows(t, RetireInvites(t, m))
  {
  }

  lemma RetireBindingsOK(t: Tables, m: MachineId)
    requires TablesOK(t)
    ensures TablesOK(RetireBindings(t, m)) && Grows(t, RetireBindings(t, m))
  {
  }

  // ----- Whose key a machine has -----

  lemma OwnersStay(t: Tables, t': Tables)
    requires MachinesOK(t) && OwnersOK(t) && Grows(t, t') && t'.machines.Keys == t.machines.Keys
    ensures OwnersOK(t')
  {
  }

  lemma InsertedOwners(t: Tables, m: MachineId, owner: UserId, key: KeyId, name: string)
    requires OwnersOK(t) && key in t.keys && t.keys[key].provider && t.keys[key].user == owner
    ensures OwnersOK(Inserted(t, m, owner, key, name))
  {
  }

  // ----- The calls -----

  predicate HeirOK(t: Tables, h: Heir) {
    h.key in t.keys && t.keys[h.key].provider && t.keys[h.key].user == h.owner
  }

  predicate RevokedKey(t: Tables, key: KeyId) {
    key in t.keys && t.keys[key].revoked
  }

  predicate RevokedMachine(t: Tables, m: MachineId) {
    m in t.machines && RevokedKey(t, t.machines[m].key)
  }

  predicate CallOK(t: Tables, closed: set<MachineId>, k: Call) {
    match k
    case Redeeming(_, m, i) => i in t.invites && t.invites[i].mid == m
    case Inserting(owner, key, _, _) => HeirOK(t, Heir(owner, key, ""))
    case Minting(user, key, _) => RevokedKey(t, key) && t.keys[key].user == user
    case Finding(key, heir) => RevokedKey(t, key) && (heir.Some? ==> HeirOK(t, heir.value))
    case RetiringInvites(m, heir) => RevokedMachine(t, m) && (heir.Some? ==> HeirOK(t, heir.value))
    case RetiringBindings(m, heir) => RevokedMachine(t, m) && m in closed && (heir.Some? ==> HeirOK(t, heir.value))
    case Remaking(h) => HeirOK(t, h)
  }

  ghost predicate CallsOK(s: State) {
    forall k :: k in s.calls ==> CallOK(s.t, s.log.closed, s.calls[k])
  }

  lemma CallStays(t: Tables, t': Tables, closed: set<MachineId>, closed': set<MachineId>, k: Call)
    requires Grows(t, t') && closed <= closed' && CallOK(t, closed, k)
    ensures CallOK(t', closed', k)
  {
  }

  // ----- Each step: the tables and the calls -----

  ghost predicate StateOK(s: State) {
    TablesOK(s.t) && OwnersOK(s.t) && CallsOK(s)
  }

  /** The call a step starts or advances; the others are left alone. */
  predicate Works(l: Label, k: CallId) {
    (l.Revoke? || l.Regenerate? || l.Upsert? || l.Redeem? || l.Advance?) && l.call == k
  }

  lemma NextOthers(s: State, l: Label, k: CallId)
    requires Enabled(s, l) && !Works(l, k)
    ensures k in Next(s, l).calls <==> k in s.calls
    ensures k in s.calls ==> Next(s, l).calls[k] == s.calls[k]
  {
  }

  // ----- The history -----

  /** What a step of a call does to the history. */
  ghost predicate HistoryMoves(g: Log, g': Log, c: Call) {
    && g'.late == g.late && g'.duty == g.duty
    && g.closed <= g'.closed && g.retired <= g'.retired && g.born <= g'.born
    && (!c.Redeeming? ==> g'.members == g.members && g'.owners == g.owners)
    && (!c.Minting? ==> g'.heirs == g.heirs)
  }

  lemma UpsertingHistory(s: State, k: CallId, owner: UserId, key: KeyId, name: string, mid: MachineId)
    ensures Upserting(s, k, owner, key, name, mid).log == s.log.(answers := Upserting(s, k, owner, key, name, mid).log.answers)
    ensures Upserting(s, k, owner, key, name, mid).t.invites == s.t.invites
  {
  }

  lemma InsertionHistory(s: State, k: CallId, owner: UserId, key: KeyId, name: string, mid: MachineId)
    ensures var g, g' := s.log, Insertion(s, k, owner, key, name, mid).log;
            g' == g.(answers := g'.answers, born := g'.born) && g.born <= g'.born
    ensures Insertion(s, k, owner, key, name, mid).t.invites == s.t.invites
  {
  }

  lemma AdvancedHistory(s: State, k: CallId, key: KeyId, mid: MachineId)
    requires k in s.calls
    ensures HistoryMoves(s.log, Advanced(s, k, key, mid).log, s.calls[k])
  {
    match s.calls[k] {
      case Inserting(owner, x, name, m) => InsertionHistory(s, k, owner, x, name, m);
      case Remaking(h) => UpsertingHistory(s, k, h.owner, h.key, h.name, mid);
      case _ =>
    }
  }

  /** What the other labels do to it: only offers are late, only revocations give a duty. */
  lemma OtherHistory(s: State, l: Label)
    requires Enabled(s, l) && !l.Advance?
    ensures var g, g' := s.log, Next(s, l).log;
            && g'.members == g.members && g'.owners == g.owners && g'.heirs == g.heirs
            && g'.closed == g.closed && g'.retired == g.retired && g'.born == g.born
            && (!l.Offer? ==> g'.late == g.late) && (!l.Revoke? && !l.Regenerate? ==> g'.duty == g.duty)
  {
    if l.Upsert? {
      UpsertingHistory(s, l.call, s.t.keys[l.key].user, l.key, l.name, l.mid);
    }
  }

  lemma NextGrowsLog(s: State, l: Label)
    requires Enabled(s, l)
    ensures s.log.closed <= Next(s, l).log.closed && s.log.retired <= Next(s, l).log.retired && s.log.born <= Next(s, l).log.born
  {
    if l.Advance? {
      AdvancedHistory(s, l.call, l.key, l.mid);
    } else {
      OtherHistory(s, l);
    }
  }

  lemma AdvancedTables(s: State, k: CallId, key: KeyId, mid: MachineId)
    requires StateOK(s) && Enabled(s, Advance(k, key, mid))
    ensures TablesOK(Advanced(s, k, key, mid).t) && Grows(s.t, Advanced(s, k, key, mid).t)
  {
    assert CallOK(s.t, s.log.closed, s.calls[k]);
    match s.calls[k] {
      case Redeeming(user, m, i) => CommitOK(s.t, user, m, i);
      case Inserting(owner, x, name, m) =>
        if CanInsert(s.t, m, x) {
          InsertedOK(s.t, m, owner, x, name);
        }
      case Minting(user, x, provider) => CreateKeyOK(s.t, key, user, provider);
      case Finding(_, _) =>
      case RetiringInvites(m, _) => RetireInvitesOK(s.t, m);
      case RetiringBindings(m, _) => RetireBindingsOK(s.t, m);
      case Remaking(h) => UpsertingTables(s, k, h.owner, h.key, h.name, mid);
    }
  }

  lemma UpsertingTables(s: State, k: CallId, owner: UserId, key: KeyId, name: string, mid: MachineId)
    requires TablesOK(s.t)
    ensures TablesOK(Upserting(s, k, owner, key, name, mid).t) && Grows(s.t, Upserting(s, k, owner, key, name, mid).t)
  {
    if MachineOf(s.t, key).Some? {
      RenamedOK(s.t, MachineOf(s.t, key).value, name);
    }
  }

  lemma NextTables(s: State, l: Label)
    requires StateOK(s) && Enabled(s, l)
    ensures TablesOK(Next(s, l).t) && Grows(s.t, Next(s, l).t)
  {
    match l {
      case NewKey(id, user, provider) => CreateKeyOK(s.t, id, user, provider);
      case Revoke(_, user, key) => RevokeKeyOK(s.t, user, key);
      case Regenerate(_, user, key) => RevokeKeyOK(s.t, user, key);
      case Upsert(k, key, name, mid) => UpsertingTables(s, k, s.t.keys[key].user, key, name, mid);
      case Offer(id, m, owner, maxUses, ttlDays, pin, now) => CreateInviteOK(s.t, id, m, owner, maxUses, ttlDays, pin, now);
      case Withdraw(owner, i) => RevokeInviteOK(s.t, owner, i);
      case Redeem(_, _, _, _) =>
      case Quit(user, m) => RevokeBindingOK(s.t, m, user);
      case Expel(owner, m, user) => RevokeBindingOK(s.t, m, user);
      case Advance(k, key, mid) => AdvancedTables(s, k, key, mid);
    }
  }

  lemma SelectedOK(t: Tables, entered: Option<Pin>, now: int)
    ensures var r := Select(t, entered, now);
            r.Accepted? ==> r.invite in t.invites && t.invites[r.invite].mid == r.mid
  {
  }

  lemma NextCall(s: State, l: Label, k: CallId)
    requires StateOK(s) && Enabled(s, l) && Works(l, k) && k in Next(s, l).calls && !l.Advance?
    requires Grows(s.t, Next(s, l).t)
    ensures CallOK(Next(s, l).t, Next(s, l).log.closed, Next(s, l).calls[k])
  {
    if l.Redeem? {
      SelectedOK(s.t, l.entered, l.now);
    }
  }

  lemma AdvancedCall(s: State, k: CallId, key: KeyId, mid: MachineId)
    requires Enabled(s, Advance(k, key, mid)) && k in Advanced(s, k, key, mid).calls
    requires CallOK(s.t, s.log.closed, s.calls[k]) && Grows(s.t, Advanced(s, k, key, mid).t)
    ensures var s' := Advanced(s, k, key, mid); CallOK(s'.t, s'.log.closed, s'.calls[k])
  {
  }

  lemma NextOwners(s: State, l: Label)
    requires StateOK(s) && Enabled(s, l) && Grows(s.t, Next(s, l).t)
    ensures OwnersOK(Next(s, l).t)
  {
    if l.Advance? && s.calls[l.call].Inserting? {
      var c := s.calls[l.call];
      assert CallOK(s.t, s.log.closed, c);
      if CanInsert(s.t, c.mid, c.key) {
        InsertedOwners(s.t, c.mid, c.owner, c.key, c.name);
      }
    } else {
      SameMachines(s, l);
      OwnersStay(s.t, Next(s, l).t);
    }
  }

  lemma SameMachines(s: State, l: Label)
    requires Enabled(s, l) && !(l.Advance? && s.calls[l.call].Inserting?)
    ensures Next(s, l).t.machines.Keys == s.t.machines.Keys
  {
    if l.Upsert? {
      UpsertingMachines(s, l.call, s.t.keys[l.key].user, l.key, l.name, l.mid);
    } else if l.Advance? && s.calls[l.call].Remaking? {
      var h := s.calls[l.call].next;
      UpsertingMachines(s, l.call, h.owner, h.key, h.name, l.mid);
    }
  }

  lemma UpsertingMachines(s: State, k: CallId, owner: UserId, key: KeyId, name: string, mid: MachineId)
    ensures Upserting(s, k, owner, key, name, mid).t.machines.Keys == s.t.machines.Keys
  {
  }

  lemma NextCalls(s: State, l: Label)
    requires StateOK(s) && Enabled(s, l) && Grows(s.t, Next(s, l).t)
    ensures CallsOK(Next(s, l))
  {
    var s' := Next(s, l);
    NextGrowsLog(s, l);
    forall k | k in s'.calls
      ensures CallOK(s'.t, s'.log.closed, s'.calls[k])
    {
      if !Works(l, k) {
        NextOthers(s, l, k);
        CallStays(s.t, s'.t, s.log.closed, s'.log.closed, s.calls[k]);
      } else if l.Advance? {
        assert CallOK(s.t, s.log.closed, s.calls[l.call]);
        AdvancedCall(s, l.call, l.key, l.mid);
      } else {
        NextCall(s, l, k);
      }
    }
  }

  lemma StepOK(s: State, l: Label)
    requires StateOK(s)
    ensures StateOK(Step(s, l)) && Grows(s.t, Step(s, l).t)
  {
    if Enabled(s, l) {
      NextTables(s, l);
      NextOwners(s, l);
      NextCalls(s, l);
    }
  }

  lemma {:induction false} RunOK(ls: seq<Label>)
    ensures StateOK(Run(ls))
  {
    if ls != [] {
      RunOK(ls[..|ls| - 1]);
      StepOK(Run(ls[..|ls| - 1]), ls[|ls| - 1]);
    }
  }
}
