/** Retiring a machine against redeems in flight, and what it means for access and listing
    (internal/coord/store.go:511-598, 808-843, 849-891; internal/coord/keys.go:118-131, 177-214). */
module Retirement {
  import opened Wire
  import opened StoreModel
  import opened StoreProtocol
  import opened StoreInvariant

  // ----- The invariant -----

  /** Once a machine's invites were retired, only invites made later, under its revoked key, are live. */
  ghost predicate ClosedOK(t: Tables, g: Log, m: MachineId) {
    m in g.closed ==> RevokedMachine(t, m) && forall i :: i in t.invites && t.invites[i].mid == m ==> t.invites[i].revoked || i in g.late
  }

  /** Once its bindings were retired too, only such invites give active bindings. */
  ghost predicate RetiredOK(t: Tables, g: Log, m: MachineId) {
    m in g.retired ==> m in g.closed && forall u :: ActiveBinding(t, m, u) ==> t.bindings[(m, u)].invite in g.late
  }

  /** A machine inserted under a revoked key has only such invites. */
  ghost predicate BornOK(t: Tables, g: Log, m: MachineId) {
    m in g.born ==> RevokedMachine(t, m) && forall i :: i in t.invites && t.invites[i].mid == m ==> i in g.late
  }

  /** The call is to retire the machine of this key. */
  predicate InCharge(k: Call, m: MachineId, key: KeyId) {
    match k
    case Minting(_, x, provider) => x == key && provider
    case Finding(x, _) => x == key
    case RetiringInvites(x, _) => x == m
    case RetiringBindings(x, _) => x == m
    case _ => false
  }

  /** The machine of a revoked key is retired, or is about to be, or never had an earlier invite. */
  ghost predicate DutyOK(s: State, m: MachineId) {
    RevokedMachine(s.t, m) && m !in s.log.retired && m !in s.log.born ==>
      var key := s.t.machines[m].key;
      key in s.log.duty && s.log.duty[key] in s.calls && InCharge(s.calls[s.log.duty[key]], m, key)
  }

  ghost predicate RowsOK(t: Tables, g: Log, m: MachineId) {
    ClosedOK(t, g, m) && RetiredOK(t, g, m) && BornOK(t, g, m)
  }

  ghost predicate RetireOK(s: State) {
    forall m :: RowsOK(s.t, s.log, m) && DutyOK(s, m)
  }

  // ----- Statements that cannot hurt -----

  /** No machine, no invite and no active binding appears. */
  ghost predicate Harmless(t: Tables, t': Tables) {
    && t'.machines.Keys == t.machines.Keys && t'.invites.Keys == t.invites.Keys
    && (forall m, u :: ActiveBinding(t', m, u) ==> ActiveBinding(t, m, u) && t'.bindings[(m, u)].invite == t.bindings[(m, u)].invite)
  }

  lemma HarmlessKeeps(t: Tables, t': Tables, g: Log, m: MachineId)
    requires Grows(t, t') && Harmless(t, t')
    requires RowsOK(t, g, m)
    ensures RowsOK(t', g, m)
  {
  }

  // ----- A redeem's commit -----

  lemma CommitKeeps(t: Tables, g: Log, user: UserId, x: MachineId, i: InviteId, m: MachineId)
    requires TablesOK(t) && i in t.invites && t.invites[i].mid == x
    requires RowsOK(t, g, m)
    ensures var t' := Commit(t, user, x, i); RowsOK(t', g, m)
  {
    CommitOK(t, user, x, i);
  }

  // ----- The other statements -----

  lemma OfferKeeps(s: State, l: Label, m: MachineId)
    requires StateOK(s) && Enabled(s, l) && l.Offer? && RowsOK(s.t, s.log, m)
    ensures RowsOK(Next(s, l).t, Next(s, l).log, m)
  {
  }

  lemma InsertKeeps(t: Tables, g: Log, x: MachineId, owner: UserId, key: KeyId, name: string, m: MachineId)
    requires TablesOK(t) && CanInsert(t, x, key)
    requires RowsOK(t, g, m)
    ensures var t' := Inserted(t, x, owner, key, name);
            var g' := g.(born := if t.keys[key].revoked then g.born + {x} else g.born);
            RowsOK(t', g', m)
  {
    assert forall i :: i in t.invites ==> InviteOK(t, t.invites[i]);
  }

  lemma RetireInvitesKeeps(t: Tables, g: Log, x: MachineId, m: MachineId)
    requires TablesOK(t) && RevokedMachine(t, x)
    requires RowsOK(t, g, m)
    ensures var t' := RetireInvites(t, x);
            var g' := g.(closed := g.closed + {x});
            RowsOK(t', g', m)
  {
  }

  lemma RetireBindingsKeeps(t: Tables, g: Log, x: MachineId, m: MachineId)
    requires TablesOK(t) && x in g.closed
    requires RowsOK(t, g, m)
    ensures var t' := RetireBindings(t, x);
            var g' := g.(retired := g.retired + {x});
            RowsOK(t', g', m)
  {
  }

  /** RowsOK looks at the history of late invites and of retirements only. */
  lemma RowsLookAt(t: Tables, g: Log, g': Log, m: MachineId)
    requires RowsOK(t, g, m)
    requires g'.late == g.late && g'.closed == g.closed && g'.retired == g.retired && g'.born == g.born
    ensures RowsOK(t, g', m)
  {
  }

  lemma InsertionKeeps(s: State, k: CallId, owner: UserId, key: KeyId, name: string, mid: MachineId, m: MachineId)
    requires TablesOK(s.t) && RowsOK(s.t, s.log, m)
    ensures var s' := Insertion(s, k, owner, key, name, mid); RowsOK(s'.t, s'.log, m)
  {
    var s' := Insertion(s, k, owner, key, name, mid);
    if CanInsert(s.t, mid, key) {
      InsertKeeps(s.t, s.log, mid, owner, key, name, m);
      RowsLookAt(s'.t, s.log.(born := s'.log.born), s'.log, m);
    }
  }

  lemma UpsertingKeeps(s: State, k: CallId, owner: UserId, key: KeyId, name: string, mid: MachineId, m: MachineId)
    requires TablesOK(s.t) && RowsOK(s.t, s.log, m)
    ensures var s' := Upserting(s, k, owner, key, name, mid); RowsOK(s'.t, s'.log, m)
  {
    var s' := Upserting(s, k, owner, key, name, mid);
    UpsertingTables(s, k, owner, key, name, mid);
    HarmlessKeeps(s.t, s'.t, s.log, m);
  }

  lemma AdvancedRows(s: State, k: CallId, key: KeyId, mid: MachineId, m: MachineId)
    requires StateOK(s) && Enabled(s, Advance(k, key, mid)) && RowsOK(s.t, s.log, m)
    ensures var s' := Advanced(s, k, key, mid); RowsOK(s'.t, s'.log, m)
  {
    var s' := Advanced(s, k, key, mid);
    assert CallOK(s.t, s.log.closed, s.calls[k]);
    match s.calls[k] {
      case Redeeming(user, x, i) =>
        CommitKeeps(s.t, s.log, user, x, i, m);
        RowsLookAt(s'.t, s.log, s'.log, m);
      case Inserting(owner, x, name, x') => InsertionKeeps(s, k, owner, x, name, x', m);
      case Minting(user, x, provider) =>
        CreateKeyOK(s.t, key, user, provider);
        HarmlessKeeps(s.t, s'.t, s.log, m);
        RowsLookAt(s'.t, s.log, s'.log, m);
      case Finding(_, _) =>
      case RetiringInvites(x, _) => RetireInvitesKeeps(s.t, s.log, x, m);
      case RetiringBindings(x, _) => RetireBindingsKeeps(s.t, s.log, x, m);
      case Remaking(h) => UpsertingKeeps(s, k, h.owner, h.key, h.name, mid, m);
    }
  }

  lemma RevokeKeyRows(t: Tables, g: Log, user: UserId, key: KeyId, m: MachineId)
    requires TablesOK(t) && RowsOK(t, g, m)
    ensures RowsOK(RevokeKey(t, user, key), g, m)
  {
    RevokeKeyOK(t, user, key);
    HarmlessKeeps(t, RevokeKey(t, user, key), g, m);
  }

  lemma NextRows(s: State, l: Label, m: MachineId)
    requires StateOK(s) && Enabled(s, l) && RowsOK(s.t, s.log, m)
    ensures RowsOK(Next(s, l).t, Next(s, l).log, m)
  {
    var s' := Next(s, l);
    match l {
      case NewKey(id, user, provider) =>
        CreateKeyOK(s.t, id, user, provider);
        HarmlessKeeps(s.t, s'.t, s.log, m);
      case Revoke(_, user, key) =>
        RevokeKeyRows(s.t, s.log, user, key, m);
        RowsLookAt(s'.t, s.log, s'.log, m);
      case Regenerate(_, user, key) =>
        RevokeKeyRows(s.t, s.log, user, key, m);
        RowsLookAt(s'.t, s.log, s'.log, m);
      case Upsert(k, key, name, mid) => UpsertingKeeps(s, k, s.t.keys[key].user, key, name, mid, m);
      case Offer(_, _, _, _, _, _, _) => OfferKeeps(s, l, m);
      case Withdraw(owner, i) =>
        RevokeInviteOK(s.t, owner, i);
        HarmlessKeeps(s.t, s'.t, s.log, m);
      case Redeem(_, _, _, _) =>
      case Quit(user, x) =>
        RevokeBindingOK(s.t, x, user);
        HarmlessKeeps(s.t, s'.t, s.log, m);
      case Expel(owner, x, user) =>
        RevokeBindingOK(s.t, x, user);
        HarmlessKeeps(s.t, s'.t, s.log, m);
      case Advance(k, key, mid) => AdvancedRows(s, k, key, mid, m);
    }
  }

  // ----- Somebody retires the machine of every revoked key -----

  // A step that leaves the duties, and the call on duty, alone.
  lemma DutyStays(s: State, s': State, m: MachineId)
    requires DutyOK(s, m) && Grows(s.t, s'.t)
    requires s.log.retired <= s'.log.retired && s.log.born <= s'.log.born
    requires RevokedMachine(s'.t, m) && m !in s'.log.born ==> RevokedMachine(s.t, m)
    requires RevokedMachine(s.t, m) ==>
               var key := s.t.machines[m].key;
               key in s.log.duty && s.log.duty[key] in s.calls && InCharge(s.calls[s.log.duty[key]], m, key) ==>
                 key in s'.log.duty && s'.log.duty[key] == s.log.duty[key]
                 && s.log.duty[key] in s'.calls && s'.calls[s.log.duty[key]] == s.calls[s.log.duty[key]]
    ensures DutyOK(s', m)
  {
  }

  /** Only revoking its key, or being inserted, puts a machine under a revoked key. */
  lemma WhoIsRevoked(s: State, l: Label, m: MachineId)
    requires StateOK(s) && Enabled(s, l) && !l.Revoke? && !l.Regenerate?
    requires RevokedMachine(Next(s, l).t, m) && m !in Next(s, l).log.born
    ensures RevokedMachine(s.t, m)
  {
    assert l.Advance? ==> CallOK(s.t, s.log.closed, s.calls[l.call]);
  }

  lemma DutiesStay(s: State, l: Label)
    requires Enabled(s, l) && !l.Revoke? && !l.Regenerate?
    ensures Next(s, l).log.duty == s.log.duty
  {
    if l.Advance? {
      AdvancedHistory(s, l.call, l.key, l.mid);
    } else {
      OtherHistory(s, l);
    }
  }

  // Steps other than revocations, not of the call on duty.
  lemma NextDutyElsewhere(s: State, l: Label, m: MachineId)
    requires StateOK(s) && Enabled(s, l) && DutyOK(s, m) && Grows(s.t, Next(s, l).t)
    requires !l.Revoke? && !l.Regenerate?
    requires RevokedMachine(s.t, m) && s.t.machines[m].key in s.log.duty ==> !Works(l, s.log.duty[s.t.machines[m].key])
    ensures DutyOK(Next(s, l), m)
  {
    var s' := Next(s, l);
    NextGrowsLog(s, l);
    DutiesStay(s, l);
    if RevokedMachine(s'.t, m) && m !in s'.log.born {
      WhoIsRevoked(s, l, m);
    }
    if RevokedMachine(s.t, m) && s.t.machines[m].key in s.log.duty {
      NextOthers(s, l, s.log.duty[s.t.machines[m].key]);
    }
    DutyStays(s, s', m);
  }

  // The call on duty takes its next step.
  lemma OnDuty(s: State, key: KeyId, mid: MachineId, m: MachineId)
    requires StateOK(s) && RevokedMachine(s.t, m)
    requires var x := s.t.machines[m].key; x in s.log.duty && s.log.duty[x] in s.calls && InCharge(s.calls[s.log.duty[x]], m, x)
    requires Enabled(s, Advance(s.log.duty[s.t.machines[m].key], key, mid))
    ensures var s' := Advanced(s, s.log.duty[s.t.machines[m].key], key, mid);
            && s'.log.duty == s.log.duty && m in s'.t.machines && s'.t.machines[m].key == s.t.machines[m].key
            && (m !in s'.log.retired ==>
                  s.log.duty[s.t.machines[m].key] in s'.calls
                  && InCharge(s'.calls[s.log.duty[s.t.machines[m].key]], m, s.t.machines[m].key))
  {
    var x := s.t.machines[m].key;
    assert HasKey(s.t, m, x);
  }

  // A key is revoked: the call that did it is on duty.
  lemma RevokingDuty(s: State, k: CallId, user: UserId, key: KeyId, next: Call, m: MachineId)
    requires StateOK(s) && DutyOK(s, m) && k !in s.calls
    requires m in s.t.machines && s.t.machines[m].key == key ==> InCharge(next, m, key)
    ensures DutyOK(Revoking(s, k, user, key, next), m)
  {
  }

  lemma NextDuty(s: State, l: Label, m: MachineId)
    requires StateOK(s) && Enabled(s, l) && DutyOK(s, m)
    ensures DutyOK(Next(s, l), m)
  {
    NextTables(s, l);
    match l {
      case Revoke(k, user, key) =>
        if key in s.t.keys && !s.t.keys[key].provider {
          ConsumerKeyDuty(s, user, key, m);
        } else {
          RevokingDuty(s, k, user, key, Finding(key, None), m);
        }
      case Regenerate(k, user, key) =>
        RevokingDuty(s, k, user, key, Minting(user, key, key in s.t.keys && s.t.keys[key].provider), m);
      case _ =>
        if RevokedMachine(s.t, m) && s.t.machines[m].key in s.log.duty && Works(l, s.log.duty[s.t.machines[m].key]) {
          WorkingDuty(s, l, m);
        } else {
          NextDutyElsewhere(s, l, m);
        }
    }
  }

  // A consumer key has no machine.
  lemma ConsumerKeyDuty(s: State, user: UserId, key: KeyId, m: MachineId)
    requires StateOK(s) && DutyOK(s, m) && key in s.t.keys && !s.t.keys[key].provider
    ensures DutyOK(s.(t := RevokeKey(s.t, user, key)), m)
  {
  }

  // A step of the call that a machine's duty names: it is the call on duty, or the duty is done.
  lemma WorkingDuty(s: State, l: Label, m: MachineId)
    requires StateOK(s) && Enabled(s, l) && DutyOK(s, m) && !l.Revoke? && !l.Regenerate?
    requires RevokedMachine(s.t, m) && s.t.machines[m].key in s.log.duty && Works(l, s.log.duty[s.t.machines[m].key])
    ensures DutyOK(Next(s, l), m)
  {
    NextGrowsLog(s, l);
    if m !in s.log.retired && m !in s.log.born {
      assert l.Advance?;
      OnDuty(s, l.key, l.mid, m);
    }
  }

  // ----- Every run -----

  lemma StepRetire(s: State, l: Label)
    requires StateOK(s) && RetireOK(s)
    ensures RetireOK(Step(s, l))
  {
    if Enabled(s, l) {
      forall m
        ensures RowsOK(Next(s, l).t, Next(s, l).log, m) && DutyOK(Next(s, l), m)
      {
        NextRows(s, l, m);
        NextDuty(s, l, m);
      }
    }
  }

  lemma {:induction false} RunRetire(ls: seq<Label>)
    ensures RetireOK(Run(ls))
  {
    if ls != [] {
      RunOK(ls[..|ls| - 1]);
      RunRetire(ls[..|ls| - 1]);
      StepRetire(Run(ls[..|ls| - 1]), ls[|ls| - 1]);
    }
  }
}
