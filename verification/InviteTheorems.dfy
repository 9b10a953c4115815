/** Invites under interleaving: every use is accounted for, and revoking one is final
    (internal/coord/store.go:603-643, 749-844). */
module InviteTheorems {
  import opened Wire
  import opened StoreModel
  import opened StoreProtocol
  import opened StoreInvariant

  // ----- Conservation -----

  predicate UsesAdd(t: Tables, g: Log, i: InviteId) {
    Count(g.members, i) + Count(g.owners, i) == if i in t.invites then t.invites[i].uses else 0
  }

  ghost predicate UsesOK(s: State) {
    forall i :: UsesAdd(s.t, s.log, i)
  }

  lemma CommitCounts(t: Tables, g: Log, user: UserId, m: MachineId, j: InviteId, i: InviteId)
    requires UsesAdd(t, g, i)
    ensures UsesAdd(Commit(t, user, m, j), Credited(g, t, user, m, j), i)
  {
    if j !in t.invites || t.invites[j].uses >= t.invites[j].max {
      FullCommit(t, user, m, j);
    } else if i == j {
      CommitMoves(t, g, user, m, j);
    } else {
      OtherCommit(t, g, user, m, j, i);
    }
  }

  lemma FullCommit(t: Tables, user: UserId, m: MachineId, j: InviteId)
    requires j !in t.invites || t.invites[j].uses >= t.invites[j].max
    ensures Commit(t, user, m, j) == t
  {
  }

  lemma CommitMoves(t: Tables, g: Log, user: UserId, m: MachineId, j: InviteId)
    requires j in t.invites && t.invites[j].uses < t.invites[j].max && UsesAdd(t, g, j)
    ensures UsesAdd(Commit(t, user, m, j), Credited(g, t, user, m, j), j)
  {
  }

  lemma OtherCommit(t: Tables, g: Log, user: UserId, m: MachineId, j: InviteId, i: InviteId)
    requires i != j && UsesAdd(t, g, i)
    ensures UsesAdd(Commit(t, user, m, j), Credited(g, t, user, m, j), i)
  {
  }

  /** The uses of one invite are the same, or it is new and unused. */
  predicate SameUses(t: Tables, t': Tables, i: InviteId) {
    && (i in t.invites ==> i in t'.invites && t'.invites[i].uses == t.invites[i].uses)
    && (i !in t.invites && i in t'.invites ==> t'.invites[i].uses == 0)
  }

  lemma AdvancedUses(s: State, k: CallId, key: KeyId, mid: MachineId, i: InviteId)
    requires k in s.calls && !s.calls[k].Redeeming?
    ensures SameUses(s.t, Advanced(s, k, key, mid).t, i)
  {
    match s.calls[k] {
      case Inserting(owner, x, name, m) => InsertionHistory(s, k, owner, x, name, m);
      case Remaking(h) => UpsertingHistory(s, k, h.owner, h.key, h.name, mid);
      case _ =>
    }
  }

  lemma OtherUses(s: State, l: Label, i: InviteId)
    requires Enabled(s, l) && !l.Advance?
    ensures SameUses(s.t, Next(s, l).t, i)
  {
    if l.Upsert? {
      UpsertingHistory(s, l.call, s.t.keys[l.key].user, l.key, l.name, l.mid);
    }
  }

  /** Besides commits, nothing moves the uses of an invite or the counts. */
  lemma OtherStepsCountNothing(s: State, l: Label, i: InviteId)
    requires Enabled(s, l) && !(l.Advance? && s.calls[l.call].Redeeming?)
    ensures var s' := Next(s, l);
            s'.log.members == s.log.members && s'.log.owners == s.log.owners && SameUses(s.t, s'.t, i)
  {
    if l.Advance? {
      AdvancedHistory(s, l.call, l.key, l.mid);
      AdvancedUses(s, l.call, l.key, l.mid, i);
    } else {
      OtherHistory(s, l);
      OtherUses(s, l, i);
    }
  }

  lemma StepUses(s: State, l: Label)
    requires UsesOK(s)
    ensures UsesOK(Step(s, l))
  {
    forall i
      ensures UsesAdd(Step(s, l).t, Step(s, l).log, i)
    {
      assert UsesAdd(s.t, s.log, i);
      if Enabled(s, l) {
        if l.Advance? && s.calls[l.call].Redeeming? {
          var k := s.calls[l.call];
          CommitCounts(s.t, s.log, k.user, k.mid, k.invite, i);
        } else {
          OtherStepsCountNothing(s, l, i);
        }
      }
    }
  }

  lemma {:induction false} RunUses(ls: seq<Label>)
    ensures UsesOK(Run(ls))
  {
    if ls != [] {
      RunUses(ls[..|ls| - 1]);
      StepUses(Run(ls[..|ls| - 1]), ls[|ls| - 1]);
    }
  }

  /** Conservation: under any interleaving of redeems between their SELECT and their guarded UPDATE, an invite
      allows one to ten uses, its uses are exactly the members' successes and the owner's uses, and so no more
      members ever succeed than it allows. */
  lemma InviteConservation(ls: seq<Label>, i: InviteId)
    requires i in Run(ls).t.invites
    ensures var v := Run(ls).t.invites[i];
            var g := Run(ls).log;
            && 1 <= v.max <= 10 && 0 <= v.uses <= v.max
            && v.uses == Count(g.members, i) + Count(g.owners, i)
            && Count(g.members, i) <= v.max
  {
    RunOK(ls);
    RunUses(ls);
    assert InviteOK(Run(ls).t, Run(ls).t.invites[i]);
    assert UsesAdd(Run(ls).t, Run(ls).log, i);
  }

  /** A successful member redeem adds exactly one use and leaves the member with an active binding from that
      invite; a failed one changes nothing. */
  lemma CommitIsAllOrNothing(s: State, k: CallId, key: KeyId, mid: MachineId)
    requires StateOK(s) && k in s.calls && s.calls[k].Redeeming? && !IsOwner(s.t, s.calls[k].user, s.calls[k].mid)
    ensures var r := s.calls[k];
            var s' := Step(s, Advance(k, key, mid));
            if CanCommit(s.t, r.invite) then
              && s'.t.invites[r.invite].uses == s.t.invites[r.invite].uses + 1
              && Count(s'.log.members, r.invite) == Count(s.log.members, r.invite) + 1
              && ActiveBinding(s'.t, r.mid, r.user) && s'.t.bindings[(r.mid, r.user)].invite == r.invite
            else s'.t == s.t && s'.log == s.log
  {
    assert CallOK(s.t, s.log.closed, s.calls[k]);
  }

  /** The step commits a member's redeem of this invite, and its guard holds. */
  ghost predicate MemberCommits(s: State, l: Label, i: InviteId) {
    && l.Advance? && l.call in s.calls && s.calls[l.call].Redeeming? && s.calls[l.call].invite == i
    && !IsOwner(s.t, s.calls[l.call].user, s.calls[l.call].mid)
    && i in s.t.invites && s.t.invites[i].uses < s.t.invites[i].max && !s.t.invites[i].revoked
  }

  /** In every reachable state, and for every step: a member success is counted for an invite exactly when a
      member's redeem of it commits with a use left on an unrevoked invite, whatever its SELECT saw; the member
      then passes the access check. */
  lemma MemberSucceedsExactly(ls: seq<Label>, l: Label, i: InviteId)
    requires i in Run(ls).t.invites
    ensures var s := Run(ls);
            var s' := Step(s, l);
            && Count(s'.log.members, i) == Count(s.log.members, i) + (if MemberCommits(s, l, i) then 1 else 0)
            && (MemberCommits(s, l, i) ==> CanAccess(s'.t, s.calls[l.call].user, s.calls[l.call].mid))
  {
    var s := Run(ls);
    RunOK(ls);
    if Enabled(s, l) {
      if l.Advance? && s.calls[l.call].Redeeming? {
        MemberStep(s, l, i);
      } else {
        OtherStepsCountNothing(s, l, i);
      }
    }
  }

  lemma MemberStep(s: State, l: Label, i: InviteId)
    requires StateOK(s) && Enabled(s, l) && l.Advance? && s.calls[l.call].Redeeming? && i in s.t.invites
    ensures Count(Step(s, l).log.members, i) == Count(s.log.members, i) + if MemberCommits(s, l, i) then 1 else 0
    ensures MemberCommits(s, l, i) ==> CanAccess(Step(s, l).t, s.calls[l.call].user, s.calls[l.call].mid)
  {
    var r := s.calls[l.call];
    assert CallOK(s.t, s.log.closed, r);
    assert InviteOK(s.t, s.t.invites[r.invite]);
    if !IsOwner(s.t, r.user, r.mid) {
      CommitIsAllOrNothing(s, l.call, l.key, l.mid);
    }
  }

  // ----- Revocation -----

  lemma {:induction false} RevokedForGood(before: seq<Label>, after: seq<Label>, i: InviteId)
    requires i in Run(before).t.invites && Run(before).t.invites[i].revoked
    ensures var t := Run(before + after).t; i in t.invites && t.invites[i].revoked
    ensures Count(Run(before + after).log.members, i) == Count(Run(before).log.members, i)
  {
    if after == [] {
      assert before + after == before;
    } else {
      var l := after[|after| - 1];
      var mid := before + after[..|after| - 1];
      assert (before + after)[..|before + after| - 1] == mid;
      RevokedForGood(before, after[..|after| - 1], i);
      RunOK(mid);
      StepOK(Run(mid), l);
      RevokedStep(Run(mid), l, i);
    }
  }

  lemma RevokedStep(s: State, l: Label, i: InviteId)
    requires StateOK(s) && i in s.t.invites && s.t.invites[i].revoked
    ensures Count(Step(s, l).log.members, i) == Count(s.log.members, i)
  {
    if Enabled(s, l) && !(l.Advance? && s.calls[l.call].Redeeming?) {
      OtherStepsCountNothing(s, l, i);
    }
  }

  /** No member redeem succeeds after RevokeInvite commits, even one whose SELECT saw the invite live. */
  lemma NoneAfterWithdrawal(before: seq<Label>, owner: UserId, i: InviteId, after: seq<Label>)
    requires i in Run(before).t.invites && Run(before).t.invites[i].owner == owner
    ensures Count(Run(before + [Withdraw(owner, i)] + after).log.members, i) == Count(Run(before).log.members, i)
  {
    assert (before + [Withdraw(owner, i)])[..|before|] == before;
    RevokedForGood(before + [Withdraw(owner, i)], after, i);
  }

  // ----- The owner's own use after a revocation -----

  /** The owner's redeems of an invite that have passed their SELECT. */
  ghost function Pending(s: State, i: InviteId): set<CallId> {
    set k | k in s.calls && s.calls[k].Redeeming? && s.calls[k].invite == i && IsOwner(s.t, s.calls[k].user, s.calls[k].mid)
  }

  /** The step commits one of them, and a use is left. */
  ghost predicate OwnerUses(s: State, l: Label, i: InviteId) {
    l.Advance? && l.call in Pending(s, i) && i in s.t.invites && s.t.invites[i].uses < s.t.invites[i].max
  }

  lemma RevokedIsNotSelected(t: Tables, entered: Option<Pin>, now: int, i: InviteId)
    requires i in t.invites && t.invites[i].revoked
    ensures var r := Select(t, entered, now); r.Accepted? ==> r.invite != i
  {
  }

  lemma OwnersStay(s: State, l: Label, m: MachineId, user: UserId)
    requires StateOK(s) && m in s.t.machines
    ensures IsOwner(Step(s, l).t, user, m) <==> IsOwner(s.t, user, m)
  {
    StepOK(s, l);
  }

  lemma NewPending(s: State, l: Label, i: InviteId, k: CallId)
    requires StateOK(s) && Enabled(s, l) && i in s.t.invites && s.t.invites[i].revoked
    requires k in Next(s, l).calls && Next(s, l).calls[k].Redeeming? && Next(s, l).calls[k].invite == i
    ensures k in s.calls && s.calls[k] == Next(s, l).calls[k] && !(l.Advance? && l.call == k)
  {
    if !Works(l, k) {
      NextOthers(s, l, k);
    } else if l.Redeem? {
      RevokedIsNotSelected(s.t, l.entered, l.now, i);
    }
  }

  /** Once an invite is revoked, none of its redeems begins any more. */
  lemma PendingShrinks(s: State, l: Label, i: InviteId, k: CallId)
    requires StateOK(s) && i in s.t.invites && s.t.invites[i].revoked && k in Pending(Step(s, l), i)
    ensures k in Pending(s, i) && Step(s, l).calls[k] == s.calls[k] && !(l.Advance? && l.call == k)
  {
    if Enabled(s, l) {
      NewPending(s, l, i, k);
      assert CallOK(s.t, s.log.closed, s.calls[k]);
      OwnersStay(s, l, s.calls[k].mid, s.calls[k].user);
    }
  }

  /** The owner's uses of a revoked invite go up exactly at those commits. */
  lemma OwnerCountStep(s: State, l: Label, i: InviteId)
    requires StateOK(s) && i in s.t.invites && s.t.invites[i].revoked
    ensures Count(Step(s, l).log.owners, i) == Count(s.log.owners, i) + if OwnerUses(s, l, i) then 1 else 0
  {
    if Enabled(s, l) && !(l.Advance? && s.calls[l.call].Redeeming?) {
      OtherStepsCountNothing(s, l, i);
    }
  }

  lemma {:induction false} PendingBefore(before: seq<Label>, after: seq<Label>, i: InviteId, k: CallId)
    requires i in Run(before).t.invites && Run(before).t.invites[i].revoked
    requires k in Pending(Run(before + after), i)
    ensures k in Pending(Run(before), i) && Run(before + after).calls[k] == Run(before).calls[k]
  {
    if after == [] {
      assert before + after == before;
    } else {
      var front, l := after[..|after| - 1], after[|after| - 1];
      assert (before + after)[..|before + after| - 1] == before + front;
      RunOK(before + front);
      RevokedForGood(before, front, i);
      PendingShrinks(Run(before + front), l, i, k);
      PendingBefore(before, front, i, k);
    }
  }

  lemma WithdrawRun(before: seq<Label>, owner: UserId, i: InviteId)
    requires i in Run(before).t.invites && Run(before).t.invites[i].owner == owner
    ensures var s := Run(before + [Withdraw(owner, i)]);
            && i in s.t.invites && s.t.invites[i].revoked && s.log == Run(before).log && s.calls == Run(before).calls
            && s.t.machines == Run(before).t.machines
  {
    assert (before + [Withdraw(owner, i)])[..|before|] == before;
  }

  /** After RevokeInvite commits, an owner's use still counts if and only if its SELECT came before, and a use
      is left when it commits. */
  lemma OwnerUseAfterWithdrawal(before: seq<Label>, owner: UserId, i: InviteId, after: seq<Label>, l: Label)
    requires i in Run(before).t.invites && Run(before).t.invites[i].owner == owner
    ensures var s := Run(before + [Withdraw(owner, i)] + after);
            Count(Step(s, l).log.owners, i) == Count(s.log.owners, i)
              + (if OwnerUses(s, l, i) && l.call in Pending(Run(before), i) && s.calls[l.call] == Run(before).calls[l.call] then 1 else 0)
  {
    var withdrawn := before + [Withdraw(owner, i)];
    WithdrawRun(before, owner, i);
    RevokedForGood(withdrawn, after, i);
    RunOK(withdrawn + after);
    OwnerCountStep(Run(withdrawn + after), l, i);
    if OwnerUses(Run(withdrawn + after), l, i) {
      PendingBefore(withdrawn, after, i, l.call);
    }
  }

  lemma PendingStep(s: State, l: Label, i: InviteId)
    requires StateOK(s) && i in s.t.invites && s.t.invites[i].revoked
    ensures Count(Step(s, l).log.owners, i) + |Pending(Step(s, l), i)| <= Count(s.log.owners, i) + |Pending(s, i)|
  {
    OwnerCountStep(s, l, i);
    var rest := if l.Advance? then Pending(s, i) - {l.call} else Pending(s, i);
    forall k | k in Pending(Step(s, l), i)
      ensures k in rest
    {
      PendingShrinks(s, l, i, k);
    }
    Fewer(Pending(Step(s, l), i), rest);
  }

  lemma Fewer(a: set<CallId>, b: set<CallId>)
    requires a <= b
    ensures |a| <= |b|
  {
    assert b == a + (b - a);
  }

  lemma {:induction false} PendingRun(before: seq<Label>, after: seq<Label>, i: InviteId)
    requires i in Run(before).t.invites && Run(before).t.invites[i].revoked
    ensures Count(Run(before + after).log.owners, i) + |Pending(Run(before + after), i)|
         <= Count(Run(before).log.owners, i) + |Pending(Run(before), i)|
  {
    if after == [] {
      assert before + after == before;
    } else {
      var front, l := after[..|after| - 1], after[|after| - 1];
      assert (before + after)[..|before + after| - 1] == before + front;
      PendingRun(before, front, i);
      RunOK(before + front);
      RevokedForGood(before, front, i);
      PendingStep(Run(before + front), l, i);
    }
  }

  /** So after a withdrawal the owner's uses grow by no more than the owner's redeems in flight at that moment. */
  lemma OwnerUsesBounded(before: seq<Label>, owner: UserId, i: InviteId, after: seq<Label>)
    requires i in Run(before).t.invites && Run(before).t.invites[i].owner == owner
    ensures Count(Run(before + [Withdraw(owner, i)] + after).log.owners, i)
         <= Count(Run(before).log.owners, i) + |Pending(Run(before), i)|
  {
    WithdrawRun(before, owner, i);
    PendingRun(before + [Withdraw(owner, i)], after, i);
    assert Pending(Run(before + [Withdraw(owner, i)]), i) == Pending(Run(before), i);
  }

  /** An owner connects a machine and offers an invite. */
  const OFFERED: seq<Label> :=
    [] + [NewKey(1, 7, true)] + [Upsert(0, 1, "x", "m")] + [Advance(0, 0, "")] + [Offer(5, "m", 7, 1, 7, "p", 0)]

  lemma Offered()
    ensures var s := Run(OFFERED);
            && s.t.machines == map["m" := Machine(7, 1, "x")] && s.calls == map[] && Count(s.log.owners, 5) == 0
            && s.t.invites == map[5 := NewInvite("m", 7, 1, 7, "p", 0)]
  {
    RunSnoc([], NewKey(1, 7, true));
    RunSnoc([] + [NewKey(1, 7, true)], Upsert(0, 1, "x", "m"));
    RunSnoc([] + [NewKey(1, 7, true)] + [Upsert(0, 1, "x", "m")], Advance(0, 0, ""));
    RunSnoc([] + [NewKey(1, 7, true)] + [Upsert(0, 1, "x", "m")] + [Advance(0, 0, "")], Offer(5, "m", 7, 1, 7, "p", 0));
    var s1 := Step(INIT, NewKey(1, 7, true));
    assert s1.t.keys == map[1 := Key(7, true, false)] && s1.t.machines == map[];
    var s2 := Step(s1, Upsert(0, 1, "x", "m"));
    assert s2 == s1.(calls := map[0 := Inserting(7, 1, "x", "m")]);
    var s3 := Step(s2, Advance(0, 0, ""));
    assert s3.t.machines == map["m" := Machine(7, 1, "x")] && s3.calls == map[] && s3.t.invites == map[];
  }

  /** The owner's redeem passes its SELECT, the invite is withdrawn, and the use counts all the same. */
  lemma WithdrawnInviteUsed() returns (ls: seq<Label>)
    ensures var s := Run(ls); 5 in s.t.invites && s.t.invites[5].revoked && Count(s.log.owners, 5) == 1
  {
    Offered();
    var select, withdraw, commit := Redeem(0, 7, Some("p"), 0), Withdraw(7, 5), Advance(0, 0, "");
    RunSnoc(OFFERED, select);
    RunSnoc(OFFERED + [select], withdraw);
    RunSnoc(OFFERED + [select] + [withdraw], commit);
    assert HasPin(Run(OFFERED).t, 5, "p");
    var s := Step(Run(OFFERED), select);
    assert s.calls == map[0 := Redeeming(7, "m", 5)] && s.t == Run(OFFERED).t;
    ls := OFFERED + [select] + [withdraw] + [commit];
  }

  // ----- The checks before the transaction -----

  predicate Redeemable(t: Tables, i: InviteId, pin: Pin, now: int) {
    && HasPin(t, i, pin)
    && !t.invites[i].revoked && now <= t.invites[i].expires && t.invites[i].uses < t.invites[i].max
  }

  lemma SelectFinds(t: Tables, i: InviteId, pin: Pin, now: int)
    requires UniquePins(t) && HasPin(t, i, pin)
    ensures Select(t, Some(pin), now) == Screened(t, i, now)
  {
    assert forall j :: HasPin(t, j, pin) ==> j == i;
  }

  lemma ScreenedWhen(t: Tables, i: InviteId, pin: Pin, now: int)
    requires HasPin(t, i, pin) && InviteOK(t, t.invites[i])
    ensures Screened(t, i, now).Accepted? <==> Redeemable(t, i, pin, now)
    ensures Screened(t, i, now).Accepted? ==> Screened(t, i, now) == Accepted(t.invites[i].mid, i)
    ensures Screened(t, i, now) != Refused(MachineGone) && Screened(t, i, now) != Refused(InvalidPin)
  {
  }

  /** RedeemPIN's SELECT accepts a PIN exactly when it is the well-formed PIN of an invite that is live,
      unexpired and has a use left; it is invalid exactly when no invite has it; the machine is never gone. */
  lemma SelectAccepts(ls: seq<Label>, entered: Option<Pin>, now: int)
    ensures var t := Run(ls).t;
            var r := Select(t, entered, now);
            && (r.Accepted? <==> entered.Some? && exists i :: Redeemable(t, i, entered.value, now))
            && r != Refused(MachineGone)
            && (r == Refused(InvalidPin) <==> entered.None? || forall i :: !HasPin(t, i, entered.value))
  {
    RunOK(ls);
    var t := Run(ls).t;
    if entered.Some? {
      if i :| HasPin(t, i, entered.value) {
        SelectFinds(t, i, entered.value, now);
        ScreenedWhen(t, i, entered.value, now);
        assert forall j :: Redeemable(t, j, entered.value, now) ==> j == i;
      }
    }
  }

  /** And a PIN that is not accepted is refused for the first reason that applies to its invite: that it was
      revoked, then that it has expired, then that its uses are exhausted. */
  lemma SelectRefuses(ls: seq<Label>, i: InviteId, pin: Pin, now: int)
    requires HasPin(Run(ls).t, i, pin)
    ensures var v := Run(ls).t.invites[i];
            var r := Select(Run(ls).t, Some(pin), now);
            && (r == Refused(RevokedPin) <==> v.revoked)
            && (r == Refused(ExpiredPin) <==> !v.revoked && now > v.expires)
            && (r == Refused(Exhausted) <==> !v.revoked && now <= v.expires && v.uses >= v.max)
            && (r == Accepted(v.mid, i) <==> !v.revoked && now <= v.expires && v.uses < v.max)
  {
    RunOK(ls);
    SelectFinds(Run(ls).t, i, pin, now);
    ScreenedWhen(Run(ls).t, i, pin, now);
  }

  // ----- What an invite was offered for -----

  predicate SameTerms(v: Invite, v': Invite) {
    v'.mid == v.mid && v'.owner == v.owner && v'.pin == v.pin && v'.max == v.max && v'.expires == v.expires
  }

  lemma TermsStep(s: State, l: Label, i: InviteId)
    requires StateOK(s) && i in s.t.invites
    ensures i in Step(s, l).t.invites && SameTerms(s.t.invites[i], Step(s, l).t.invites[i])
  {
    StepOK(s, l);
  }

  lemma {:induction false} TermsAreKept(before: seq<Label>, after: seq<Label>, i: InviteId)
    requires i in Run(before).t.invites
    ensures i in Run(before + after).t.invites && SameTerms(Run(before).t.invites[i], Run(before + after).t.invites[i])
  {
    if after == [] {
      assert before + after == before;
    } else {
      var ls := before + after[..|after| - 1];
      assert (before + after)[..|before + after| - 1] == ls;
      TermsAreKept(before, after[..|after| - 1], i);
      RunOK(ls);
      TermsStep(Run(ls), after[|after| - 1], i);
    }
  }

  /** Whatever happens after an owner offers an invite to their machine under an unused PIN, it stays an invite to
      that machine under that PIN, for as many members as asked for, but at least one and at most ten, and until as
      many days later as asked for, or seven; and no more members ever succeed. */
  lemma OfferedInvite(before: seq<Label>, id: InviteId, m: MachineId, owner: UserId, maxUses: int, ttlDays: int, pin: Pin, now: int,
                      after: seq<Label>)
    requires id !in Run(before).t.invites && IsOwner(Run(before).t, owner, m) && !PinTaken(Run(before).t, pin)
    ensures var s := Run(before + [Offer(id, m, owner, maxUses, ttlDays, pin, now)] + after);
            && id in s.t.invites
            && var v := s.t.invites[id];
               && v.mid == m && v.owner == owner && v.pin == pin
               && (1 <= maxUses <= 10 ==> v.max == maxUses) && (maxUses < 1 ==> v.max == 1) && (maxUses > 10 ==> v.max == 10)
               && v.expires == now + 86_400 * (if ttlDays >= 1 then ttlDays else 7)
               && Count(s.log.members, id) <= v.max
  {
    var offered := before + [Offer(id, m, owner, maxUses, ttlDays, pin, now)];
    RunSnoc(before, Offer(id, m, owner, maxUses, ttlDays, pin, now));
    TermsAreKept(offered, after, id);
    InviteConservation(offered + after, id);
  }

  /** An offer makes an invite if and only if it is the owner's and nobody has the PIN; it is then unused and not
      revoked. */
  lemma OfferedUnused(before: seq<Label>, id: InviteId, m: MachineId, owner: UserId, maxUses: int, ttlDays: int, pin: Pin, now: int)
    requires id !in Run(before).t.invites
    ensures var v := Run(before + [Offer(id, m, owner, maxUses, ttlDays, pin, now)]).t.invites;
            && (id in v <==> IsOwner(Run(before).t, owner, m) && forall i :: i in Run(before).t.invites ==> Run(before).t.invites[i].pin != pin)
            && (id in v ==> v[id].uses == 0 && !v[id].revoked)
  {
    RunSnoc(before, Offer(id, m, owner, maxUses, ttlDays, pin, now));
    TakenPins(Run(before).t, pin);
  }

  lemma TakenPins(t: Tables, pin: Pin)
    ensures !PinTaken(t, pin) <==> forall i :: i in t.invites ==> t.invites[i].pin != pin
  {
    if i :| i in t.invites && t.invites[i].pin == pin {
      assert HasPin(t, i, pin);
    }
  }
}
