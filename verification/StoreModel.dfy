/** The tables of the store as values, and what each SQL statement does to them (internal/coord/store.go).
    A statement, and a transaction, is atomic. Timestamps that only say whether a row is revoked are
    booleans; hashes are injective, so a PIN is its hash. */
module StoreModel {
  import opened Wire

  type UserId = int
  type KeyId = int
  type InviteId = int
  type MachineId = string
  type Pin = string

  /** `provider` says that the key's scope is "provider" or "both". */
  datatype Key = Key(user: UserId, provider: bool, revoked: bool)

  datatype Machine = Machine(owner: UserId, key: KeyId, name: string)

  datatype Invite = Invite(mid: MachineId, owner: UserId, pin: Pin, max: int, uses: int, expires: int, revoked: bool)

  datatype Binding = Binding(invite: InviteId, revoked: bool)

  /** Bindings are unique per machine and member. */
  datatype Tables = Tables(
    keys: map<KeyId, Key>,
    machines: map<MachineId, Machine>,
    invites: map<InviteId, Invite>,
    bindings: map<(MachineId, UserId), Binding>)

  const NO_ROWS := Tables(map[], map[], map[], map[])

  const MAX_USES: int := 10
  const DEFAULT_DAYS: int := 7
  const SECONDS_PER_DAY: int := 86400

  // ----- Keys -----

  function CreateKey(t: Tables, id: KeyId, user: UserId, provider: bool): Tables {
    t.(keys := t.keys[id := Key(user, provider, false)])
  }

  predicate CanRevokeKey(t: Tables, user: UserId, key: KeyId) {
    key in t.keys && t.keys[key].user == user && !t.keys[key].revoked
  }

  function RevokeKey(t: Tables, user: UserId, key: KeyId): Tables {
    if CanRevokeKey(t, user, key) then t.(keys := t.keys[key := t.keys[key].(revoked := true)]) else t
  }

  // ----- Machines -----

  predicate HasKey(t: Tables, m: MachineId, key: KeyId) {
    m in t.machines && t.machines[m].key == key
  }

  /** At most one machine has a given provider key. */
  ghost predicate UniqueKeys(t: Tables) {
    forall m, n :: m in t.machines && n in t.machines && t.machines[m].key == t.machines[n].key ==> m == n
  }

  ghost function MachineOf(t: Tables, key: KeyId): (r: Option<MachineId>)
    ensures r.Some? ==> HasKey(t, r.value, key)
    ensures r.None? ==> forall m :: !HasKey(t, m, key)
  {
    if m :| HasKey(t, m, key) then Some(m) else None
  }

  function Renamed(t: Tables, m: MachineId, name: string): Tables
    requires m in t.machines
  {
    if name != "" then t.(machines := t.machines[m := t.machines[m].(name := name)]) else t
  }

  /** The constraints an INSERT into machines meets: primary key, unique provider key, foreign key. */
  ghost predicate CanInsert(t: Tables, m: MachineId, key: KeyId) {
    m !in t.machines && key in t.keys && forall x :: !HasKey(t, x, key)
  }

  function Inserted(t: Tables, m: MachineId, owner: UserId, key: KeyId, name: string): Tables {
    t.(machines := t.machines[m := Machine(owner, key, if name == "" then "machine" else name)])
  }

  predicate LiveKey(t: Tables, m: MachineId)
    requires m in t.machines
  {
    t.machines[m].key in t.keys && !t.keys[t.machines[m].key].revoked
  }

  // ----- Access -----

  predicate ActiveBinding(t: Tables, m: MachineId, user: UserId) {
    (m, user) in t.bindings && !t.bindings[(m, user)].revoked
  }

  predicate CanAccess(t: Tables, user: UserId, m: MachineId) {
    m in t.machines && if t.machines[m].owner == user then LiveKey(t, m) else ActiveBinding(t, m, user)
  }

  /** The rows of ListMachinesByOwner. */
  function Owned(t: Tables, user: UserId): set<MachineId> {
    set m | m in t.machines && t.machines[m].owner == user && LiveKey(t, m)
  }

  /** The rows that ListAccessibleMachines adds: active bindings to machines whose key is live. */
  function Joined(t: Tables, user: UserId): set<MachineId> {
    set m | m in t.machines && ActiveBinding(t, m, user) && LiveKey(t, m)
  }

  /** The whole listing; a machine in both parts would be listed twice. */
  function Listing(t: Tables, user: UserId): multiset<MachineId> {
    multiset(Owned(t, user)) + multiset(Joined(t, user))
  }

  // ----- Invites -----

  function Clamp(maxUses: int): int {
    if maxUses < 1 then 1 else if maxUses > MAX_USES then MAX_USES else maxUses
  }

  function NewInvite(m: MachineId, owner: UserId, maxUses: int, ttlDays: int, pin: Pin, now: int): Invite {
    Invite(m, owner, pin, Clamp(maxUses), 0, now + (if ttlDays < 1 then DEFAULT_DAYS else ttlDays) * SECONDS_PER_DAY, false)
  }

  predicate HasPin(t: Tables, i: InviteId, pin: Pin) {
    i in t.invites && t.invites[i].pin == pin
  }

  ghost predicate PinTaken(t: Tables, pin: Pin) {
    exists i :: HasPin(t, i, pin)
  }

  ghost predicate CanInvite(t: Tables, m: MachineId, owner: UserId, pin: Pin) {
    m in t.machines && t.machines[m].owner == owner && !PinTaken(t, pin)
  }

  ghost function CreateInvite(t: Tables, id: InviteId, m: MachineId, owner: UserId, maxUses: int, ttlDays: int, pin: Pin, now: int): Tables {
    if CanInvite(t, m, owner, pin) then t.(invites := t.invites[id := NewInvite(m, owner, maxUses, ttlDays, pin, now)]) else t
  }

  predicate CanRevokeInvite(t: Tables, owner: UserId, i: InviteId) {
    i in t.invites && t.invites[i].owner == owner && !t.invites[i].revoked
  }

  function RevokeInvite(t: Tables, owner: UserId, i: InviteId): Tables {
    if CanRevokeInvite(t, owner, i) then t.(invites := t.invites[i := t.invites[i].(revoked := true)]) else t
  }

  // ----- Redeeming -----

  datatype RedeemError = InvalidPin | RevokedPin | ExpiredPin | Exhausted | MachineGone

  datatype Redeemed = Accepted(mid: MachineId, invite: InviteId) | Refused(why: RedeemError)

  ghost predicate UniquePins(t: Tables) {
    forall i, j :: i in t.invites && j in t.invites && t.invites[i].pin == t.invites[j].pin ==> i == j
  }

  /** The checks of RedeemPIN on the row its SELECT found. */
  function Screened(t: Tables, i: InviteId, now: int): Redeemed
    requires i in t.invites
  {
    var v := t.invites[i];
    if v.revoked then Refused(RevokedPin)
    else if now > v.expires then Refused(ExpiredPin)
    else if v.uses >= v.max then Refused(Exhausted)
    else if v.mid !in t.machines then Refused(MachineGone)
    else Accepted(v.mid, i)
  }

  /** The first phase of RedeemPIN; a malformed PIN is None. */
  ghost function Select(t: Tables, pin: Option<Pin>, now: int): Redeemed {
    match pin
    case None => Refused(InvalidPin)
    case Some(p) => if i :| HasPin(t, i, p) then Screened(t, i, now) else Refused(InvalidPin)
  }

  function Used(t: Tables, i: InviteId): Tables
    requires i in t.invites
  {
    t.(invites := t.invites[i := t.invites[i].(uses := t.invites[i].uses + 1)])
  }

  /** The guard of the member's transaction. */
  predicate CanCommit(t: Tables, i: InviteId) {
    i in t.invites && t.invites[i].uses < t.invites[i].max && !t.invites[i].revoked
  }

  predicate IsOwner(t: Tables, user: UserId, m: MachineId) {
    m in t.machines && t.machines[m].owner == user
  }

  /** The second phase: the owner's use counts while uses are left, whether or not the invite was revoked
      meanwhile; a member's transaction re-checks both and upserts the binding. */
  function Commit(t: Tables, user: UserId, m: MachineId, i: InviteId): Tables {
    if IsOwner(t, user, m) then
      if i in t.invites && t.invites[i].uses < t.invites[i].max then Used(t, i) else t
    else if CanCommit(t, i) then
      Used(t, i).(bindings := t.bindings[(m, user) := Binding(i, false)])
    else t
  }

  predicate Commits(t: Tables, user: UserId, m: MachineId, i: InviteId) {
    IsOwner(t, user, m) || CanCommit(t, i)
  }

  // ----- Bindings -----

  function RevokeBinding(t: Tables, m: MachineId, user: UserId): Tables {
    if ActiveBinding(t, m, user) then t.(bindings := t.bindings[(m, user) := t.bindings[(m, user)].(revoked := true)]) else t
  }

  function RevokeMember(t: Tables, owner: UserId, m: MachineId, user: UserId): Tables {
    if IsOwner(t, owner, m) then RevokeBinding(t, m, user) else t
  }

  // ----- Retirement: two statements -----

  function RetireInvites(t: Tables, m: MachineId): Tables {
    t.(invites := map i | i in t.invites :: if t.invites[i].mid == m then t.invites[i].(revoked := true) else t.invites[i])
  }

  function RetireBindings(t: Tables, m: MachineId): Tables {
    t.(bindings := map b | b in t.bindings :: if b.0 == m then t.bindings[b].(revoked := true) else t.bindings[b])
  }

  function Retire(t: Tables, m: MachineId): Tables {
    RetireBindings(RetireInvites(t, m), m)
  }
}
