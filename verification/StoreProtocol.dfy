/** The store under interleaving. Redeeming a PIN, upserting a machine, and revoking or regenerating a key run
    several statements each; such a call is kept while it is under way, and others may come in between
    (internal/coord/store.go, internal/coord/keys.go). The database itself does not fail. */
module StoreProtocol {
  import opened Wire
  import opened StoreModel

  type CallId = nat

  /** The machine that a regenerated key still has to get. */
  datatype Heir = Heir(owner: UserId, key: KeyId, name: string)

  /** The statement a call has reached. */
  datatype Call =
    | Redeeming(user: UserId, mid: MachineId, invite: InviteId)
    | Inserting(owner: UserId, key: KeyId, name: string, mid: MachineId)
    | Minting(user: UserId, key: KeyId, provider: bool)
    | Finding(key: KeyId, heir: Option<Heir>)
    | RetiringInvites(mid: MachineId, heir: Option<Heir>)
    | RetiringBindings(mid: MachineId, heir: Option<Heir>)
    | Remaking(next: Heir)

  /** History: uses by members and by owners; invites made on machines whose key was revoked; machines whose
      first and whose second retirement statement ran; machines inserted under a revoked key; the call that
      retires a key's machine; what successful upserts returned; and which key
      replaced a regenerated provider key. */
  datatype Log = Log(
    members: map<InviteId, nat>,
    owners: map<InviteId, nat>,
    late: set<InviteId>,
    closed: set<MachineId>,
    retired: set<MachineId>,
    born: set<MachineId>,
    duty: map<KeyId, CallId>,
    answers: set<(KeyId, MachineId)>,
    heirs: map<KeyId, KeyId>)

  datatype State = State(t: Tables, calls: map<CallId, Call>, log: Log)

  datatype Label =
    | NewKey(id: KeyId, user: UserId, provider: bool)
    | Revoke(call: CallId, user: UserId, key: KeyId)
    | Regenerate(call: CallId, user: UserId, key: KeyId)
    | Upsert(call: CallId, key: KeyId, name: string, mid: MachineId)
    | Offer(id: InviteId, mid: MachineId, owner: UserId, maxUses: int, ttlDays: int, pin: Pin, now: int)
    | Withdraw(owner: UserId, invite: InviteId)
    | Redeem(call: CallId, user: UserId, entered: Option<Pin>, now: int)
    | Quit(user: UserId, mid: MachineId)
    | Expel(owner: UserId, mid: MachineId, user: UserId)
    | Advance(call: CallId, key: KeyId, mid: MachineId)

  const INIT := State(NO_ROWS, map[], Log(map[], map[], {}, {}, {}, {}, map[], {}, map[]))

  function Count(m: map<InviteId, nat>, i: InviteId): nat {
    if i in m then m[i] else 0
  }

  /** Row ids are fresh, and so are call ids. A provider connects with a key of provider scope. */
  predicate Enabled(s: State, l: Label) {
    match l
    case NewKey(id, _, _) => id !in s.t.keys
    case Revoke(k, _, _) => k !in s.calls
    case Regenerate(k, _, _) => k !in s.calls
    case Upsert(k, key, _, _) => k !in s.calls && key in s.t.keys && s.t.keys[key].provider
    case Offer(id, _, _, _, _, _, _) => id !in s.t.invites
    case Redeem(k, _, _, _) => k !in s.calls
    case Advance(k, key, _) => k in s.calls && (s.calls[k].Minting? ==> key !in s.t.keys)
    case _ => true
  }

  /** The SELECT of an upsert: an existing machine is renamed and returned, otherwise one is to be inserted. */
  ghost function Upserting(s: State, k: CallId, owner: UserId, key: KeyId, name: string, mid: MachineId): State {
    match MachineOf(s.t, key)
    case Some(x) =>
      State(Renamed(s.t, x, name), s.calls - {k}, s.log.(answers := s.log.answers + {(key, x)}))
    case None => s.(calls := s.calls[k := Inserting(owner, key, name, mid)])
  }

  /** The INSERT of an upsert. When it violates a constraint, a machine that another call created meanwhile is
      returned. */
  ghost function Insertion(s: State, k: CallId, owner: UserId, key: KeyId, name: string, mid: MachineId): State {
    if CanInsert(s.t, mid, key) then
      State(Inserted(s.t, mid, owner, key, name), s.calls - {k},
            s.log.(answers := s.log.answers + {(key, mid)},
                   born := if s.t.keys[key].revoked then s.log.born + {mid} else s.log.born))
    else match MachineOf(s.t, key)
      case Some(x) => s.(calls := s.calls - {k}, log := s.log.(answers := s.log.answers + {(key, x)}))
      case None => s.(calls := s.calls - {k})
  }

  /** What a commit adds to the counts. */
  function Credited(g: Log, t: Tables, user: UserId, m: MachineId, i: InviteId): Log {
    if i !in t.invites || t.invites[i].uses >= t.invites[i].max then g
    else if IsOwner(t, user, m) then g.(owners := g.owners[i := Count(g.owners, i) + 1])
    else if CanCommit(t, i) then g.(members := g.members[i := Count(g.members, i) + 1])
    else g
  }

  ghost function Advanced(s: State, k: CallId, key: KeyId, mid: MachineId): State
    requires k in s.calls
  {
    match s.calls[k]
    case Redeeming(user, m, i) =>
      State(Commit(s.t, user, m, i), s.calls - {k}, Credited(s.log, s.t, user, m, i))
    case Inserting(owner, x, name, m) => Insertion(s, k, owner, x, name, m)
    case Minting(user, was, provider) =>
      State(CreateKey(s.t, key, user, provider),
            if provider then s.calls[k := Finding(was, Some(Heir(user, key, "machine")))] else s.calls - {k},
            if provider then s.log.(heirs := s.log.heirs[was := key]) else s.log)
    case Finding(x, heir) =>
      (match MachineOf(s.t, x)
       case None => s.(calls := if heir.Some? then s.calls[k := Remaking(heir.value)] else s.calls - {k})
       case Some(m) =>
         var named := if heir.Some? then Some(heir.value.(name := s.t.machines[m].name)) else None;
         s.(calls := s.calls[k := RetiringInvites(m, named)]))
    case RetiringInvites(m, heir) =>
      State(RetireInvites(s.t, m), s.calls[k := RetiringBindings(m, heir)], s.log.(closed := s.log.closed + {m}))
    case RetiringBindings(m, heir) =>
      State(RetireBindings(s.t, m),
            if heir.Some? then s.calls[k := Remaking(heir.value)] else s.calls - {k},
            s.log.(retired := s.log.retired + {m}))
    case Remaking(h) => Upserting(s, k, h.owner, h.key, h.name, mid)
  }

  /** Revoking a key; the machine of a provider key is then to be retired by this call. */
  function Revoking(s: State, k: CallId, user: UserId, key: KeyId, next: Call): State {
    if !CanRevokeKey(s.t, user, key) then s
    else
      State(RevokeKey(s.t, user, key), s.calls[k := next],
            if s.t.keys[key].provider then s.log.(duty := s.log.duty[key := k]) else s.log)
  }

  ghost function Next(s: State, l: Label): State
    requires Enabled(s, l)
  {
    match l
    case NewKey(id, user, provider) => s.(t := CreateKey(s.t, id, user, provider))
    case Revoke(k, user, key) =>
      if key in s.t.keys && !s.t.keys[key].provider then s.(t := RevokeKey(s.t, user, key))
      else Revoking(s, k, user, key, Finding(key, None))
    case Regenerate(k, user, key) =>
      Revoking(s, k, user, key, Minting(user, key, key in s.t.keys && s.t.keys[key].provider))
    case Upsert(k, key, name, mid) => Upserting(s, k, s.t.keys[key].user, key, name, mid)
    case Offer(id, m, owner, maxUses, ttlDays, pin, now) =>
      var late := CanInvite(s.t, m, owner, pin) && !LiveKey(s.t, m);
      s.(t := CreateInvite(s.t, id, m, owner, maxUses, ttlDays, pin, now),
         log := if late then s.log.(late := s.log.late + {id}) else s.log)
    case Withdraw(owner, i) => s.(t := RevokeInvite(s.t, owner, i))
    case Redeem(k, user, pin, now) =>
      var r := Select(s.t, pin, now);
      if r.Accepted? then s.(calls := s.calls[k := Redeeming(user, r.mid, r.invite)]) else s
    case Quit(user, m) => s.(t := RevokeBinding(s.t, m, user))
    case Expel(owner, m, user) => s.(t := RevokeMember(s.t, owner, m, user))
    case Advance(k, key, mid) => Advanced(s, k, key, mid)
  }

  ghost function Step(s: State, l: Label): State {
    if Enabled(s, l) then Next(s, l) else s
  }

  ghost function Run(ls: seq<Label>): State {
    if ls == [] then INIT else Step(Run(ls[..|ls| - 1]), ls[|ls| - 1])
  }

  lemma RunSnoc(ls: seq<Label>, l: Label)
    ensures Run(ls + [l]) == Step(Run(ls), l)
  {
    assert (ls + [l])[..|ls|] == ls;
  }
}
