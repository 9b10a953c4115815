/** What the store promises under every interleaving: retirement beats redeems in flight, the listing agrees
    with the access check, and machine ids are stable. */
module StoreTheorems {
  import opened StoreModel
  import opened StoreProtocol
  import opened StoreInvariant
  import opened Retirement

  // ----- Retirement beats redeems in flight -----

  /** No invite was created on the machine while its key was revoked. */
  ghost predicate CarefulWith(ls: seq<Label>, m: MachineId) {
    forall i :: 0 <= i < |ls| && ls[i].Offer? && ls[i].mid == m && m in Run(ls[..i]).t.machines ==> LiveKey(Run(ls[..i]).t, m)
  }

  lemma CarefulPrefix(ls: seq<Label>, m: MachineId)
    requires CarefulWith(ls, m) && ls != []
    ensures CarefulWith(ls[..|ls| - 1], m)
    ensures var l := ls[|ls| - 1];
            l.Offer? && l.mid == m && m in Run(ls[..|ls| - 1]).t.machines ==> LiveKey(Run(ls[..|ls| - 1]).t, m)
  {
    var before := ls[..|ls| - 1];
    forall i | 0 <= i < |before| && before[i].Offer? && before[i].mid == m && m in Run(before[..i]).t.machines
      ensures LiveKey(Run(before[..i]).t, m)
    {
      assert before[..i] == ls[..i];
    }
  }

  /** The invite is an existing one of another machine. */
  predicate Elsewhere(t: Tables, i: InviteId, m: MachineId) {
    i in t.invites && t.invites[i].mid != m
  }

  lemma OnlyOffersAreLate(s: State, l: Label)
    requires Enabled(s, l) && !l.Offer?
    ensures Next(s, l).log.late == s.log.late
  {
    if l.Advance? {
      AdvancedHistory(s, l.call, l.key, l.mid);
    } else {
      OtherHistory(s, l);
    }
  }

  lemma LateOffer(s: State, l: Label, m: MachineId, i: InviteId)
    requires Enabled(s, l) && l.Offer? && i in Next(s, l).log.late && i !in s.log.late
    requires l.mid == m && m in s.t.machines ==> LiveKey(s.t, m)
    ensures Elsewhere(Next(s, l).t, i, m)
  {
  }

  lemma NewLate(s: State, l: Label, m: MachineId, i: InviteId)
    requires i in Step(s, l).log.late && i !in s.log.late
    requires l.Offer? && l.mid == m && m in s.t.machines ==> LiveKey(s.t, m)
    ensures Elsewhere(Step(s, l).t, i, m)
  {
    if !l.Offer? {
      OnlyOffersAreLate(s, l);
    } else {
      LateOffer(s, l, m, i);
    }
  }

  lemma {:induction false} CarefulMeansNoLate(ls: seq<Label>, m: MachineId)
    requires CarefulWith(ls, m)
    ensures forall i :: i in Run(ls).log.late ==> Elsewhere(Run(ls).t, i, m)
  {
    if ls != [] {
      var s, l := Run(ls[..|ls| - 1]), ls[|ls| - 1];
      CarefulPrefix(ls, m);
      CarefulMeansNoLate(ls[..|ls| - 1], m);
      RunOK(ls[..|ls| - 1]);
      StepOK(s, l);
      forall i | i in Step(s, l).log.late
        ensures Elsewhere(Step(s, l).t, i, m)
      {
        if i !in s.log.late {
          NewLate(s, l, m, i);
        } else {
          assert Elsewhere(s.t, i, m);
        }
      }
    }
  }

  /** Whatever was going on, an active binding on a retired machine came from an invite created on it after
      its key was revoked. */
  lemma OnlyLateInvites(ls: seq<Label>, m: MachineId, user: UserId)
    requires m in Run(ls).log.retired && ActiveBinding(Run(ls).t, m, user)
    ensures Run(ls).t.bindings[(m, user)].invite in Run(ls).log.late
  {
    RunRetire(ls);
    assert RowsOK(Run(ls).t, Run(ls).log, m);
  }

  lemma StepRetired(s: State, l: Label)
    ensures s.log.retired <= Step(s, l).log.retired
  {
    if Enabled(s, l) {
      NextGrowsLog(s, l);
    }
  }

  lemma {:induction false} RetiredForGood(before: seq<Label>, after: seq<Label>)
    ensures Run(before).log.retired <= Run(before + after).log.retired
  {
    if after == [] {
      assert before + after == before;
    } else {
      assert (before + after)[..|before + after| - 1] == before + after[..|after| - 1];
      RetiredForGood(before, after[..|after| - 1]);
      StepRetired(Run(before + after[..|after| - 1]), after[|after| - 1]);
    }
  }

  /** Retirement beats redeems in flight: when RetireMachine has run both its statements, no member has an
      active binding on the machine, nor ever again, whatever redeems were between their SELECT and their
      transaction - given that no invite is created on the machine once its key is revoked. */
  lemma RetirementBeatsRedeems(before: seq<Label>, k: CallId, key: KeyId, mid: MachineId, after: seq<Label>, user: UserId)
    requires k in Run(before).calls && Run(before).calls[k].RetiringBindings?
    requires CarefulWith(before + [Advance(k, key, mid)] + after, Run(before).calls[k].mid)
    ensures !ActiveBinding(Run(before + [Advance(k, key, mid)] + after).t, Run(before).calls[k].mid, user)
  {
    var m := Run(before).calls[k].mid;
    var now := before + [Advance(k, key, mid)];
    assert now[..|now| - 1] == before;
    assert m in Run(now).log.retired;
    RetiredForGood(now, after);
    RunOK(now + after);
    CarefulMeansNoLate(now + after, m);
    if ActiveBinding(Run(now + after).t, m, user) {
      assert BindingOK(Run(now + after).t, m, user, Run(now + after).t.bindings[(m, user)]);
      OnlyLateInvites(now + after, m, user);
    }
  }

  /** The order of the two statements is what does it. A redeem that passed its SELECT and commits between
      them fails in the source's order; in the reverse order it would leave an active binding behind. */
  lemma OrderMatters(t: Tables, user: UserId, m: MachineId, i: InviteId)
    requires CanCommit(t, i) && t.invites[i].mid == m && !IsOwner(t, user, m)
    ensures !ActiveBinding(RetireBindings(Commit(RetireInvites(t, m), user, m, i), m), m, user)
    ensures ActiveBinding(RetireInvites(Commit(RetireBindings(t, m), user, m, i), m), m, user)
  {
  }

  /** The hypothesis is needed: CreateInvite does not look at the key, so an owner can invite to a retired
      machine, and a member redeem it. */
  lemma InvitingToARetiredMachine(t: Tables, owner: UserId, m: MachineId, id: InviteId, pin: Pin, now: int, user: UserId)
    requires m in t.machines && t.machines[m].owner == owner && !LiveKey(t, m) && user != owner
    requires id !in t.invites && !PinTaken(t, pin)
    ensures var offered := CreateInvite(Retire(t, m), id, m, owner, 1, 7, pin, now);
            && id in offered.invites && Screened(offered, id, now) == Accepted(m, id)
            && var joined := Commit(offered, user, m, id);
            && ActiveBinding(joined, m, user) && CanAccess(joined, user, m) && m !in Joined(joined, user)
  {
    RetiredPins(t, m, pin);
  }

  lemma RetiredPins(t: Tables, m: MachineId, pin: Pin)
    requires !PinTaken(t, pin)
    ensures !PinTaken(Retire(t, m), pin)
  {
    forall i
      ensures !HasPin(Retire(t, m), i, pin)
    {
      assert !HasPin(t, i, pin);
    }
  }

  // ----- The listing and the access check -----

  /** Nobody is a member of their own machine, and every binding came from an invite to its machine. */
  lemma NoSelfBinding(ls: seq<Label>, m: MachineId, user: UserId)
    requires (m, user) in Run(ls).t.bindings
    ensures var t := Run(ls).t;
            && !IsOwner(t, user, m)
            && t.bindings[(m, user)].invite in t.invites && t.invites[t.bindings[(m, user)].invite].mid == m
  {
    RunOK(ls);
    assert BindingOK(Run(ls).t, m, user, Run(ls).t.bindings[(m, user)]);
  }

  lemma ListedTwice(t: Tables, user: UserId, m: MachineId)
    ensures Listing(t, user)[m] == (if m in Owned(t, user) then 1 else 0) + (if m in Joined(t, user) then 1 else 0)
  {
  }

  /** In every reachable state no machine is listed twice, and every listed machine may be accessed. */
  lemma ListingIsSound(ls: seq<Label>, user: UserId, m: MachineId)
    ensures Listing(Run(ls).t, user)[m] <= 1
    ensures m in Listing(Run(ls).t, user) ==> CanAccess(Run(ls).t, user, m)
  {
    var t := Run(ls).t;
    RunOK(ls);
    ListedTwice(t, user, m);
    if ActiveBinding(t, m, user) {
      assert BindingOK(t, m, user, t.bindings[(m, user)]);
    }
  }

  /** The two differ exactly on active bindings to machines whose key is revoked. */
  lemma ListingDiffersExactly(ls: seq<Label>, user: UserId, m: MachineId)
    ensures var t := Run(ls).t;
            CanAccess(t, user, m) && m !in Listing(t, user) <==> ActiveBinding(t, m, user) && RevokedMachine(t, m)
  {
    var t := Run(ls).t;
    RunOK(ls);
    ListedTwice(t, user, m);
    if ActiveBinding(t, m, user) {
      assert BindingOK(t, m, user, t.bindings[(m, user)]);
    }
  }

  /** No call that revokes or regenerates a key is between its statements. */
  predicate AtBoundary(s: State) {
    forall k :: k in s.calls ==>
      !s.calls[k].Minting? && !s.calls[k].Finding? && !s.calls[k].RetiringInvites? && !s.calls[k].RetiringBindings?
  }

  /** At a handler boundary, with invites created on live-key machines only, a revoked key has no active
      binding, and the listing is exactly what the access check allows. */
  lemma ListingIsComplete(ls: seq<Label>, user: UserId, m: MachineId)
    requires AtBoundary(Run(ls)) && CarefulWith(ls, m)
    ensures m in Listing(Run(ls).t, user) <==> CanAccess(Run(ls).t, user, m)
    ensures RevokedMachine(Run(ls).t, m) ==> !ActiveBinding(Run(ls).t, m, user)
  {
    var s := Run(ls);
    RunOK(ls);
    RunRetire(ls);
    assert RowsOK(s.t, s.log, m) && DutyOK(s, m);
    CarefulMeansNoLate(ls, m);
    if RevokedMachine(s.t, m) && ActiveBinding(s.t, m, user) {
      RetiredOrBorn(s, m, user);
    }
    ListingIsSound(ls, user, m);
    ListingDiffersExactly(ls, user, m);
  }

  lemma RetiredOrBorn(s: State, m: MachineId, user: UserId)
    requires StateOK(s) && RowsOK(s.t, s.log, m) && DutyOK(s, m) && AtBoundary(s)
    requires RevokedMachine(s.t, m) && ActiveBinding(s.t, m, user)
    ensures s.t.bindings[(m, user)].invite in s.log.late
    ensures s.t.invites[s.t.bindings[(m, user)].invite].mid == m
  {
    assert BindingOK(s.t, m, user, s.t.bindings[(m, user)]);
  }

  // ----- The end of a membership -----

  /** When a member leaves, or the machine's owner removes them, they lose access at once, and nobody else's access to
      anything changes; nobody but the owner can remove a member. */
  lemma MembershipEnds(ls: seq<Label>, l: Label, m: MachineId, user: UserId, n: MachineId, other: UserId)
    requires l == Quit(user, m) || (l.Expel? && l.mid == m && l.user == user)
    ensures var t, t' := Run(ls).t, Step(Run(ls), l).t;
            var allowed := l.Quit? || (m in t.machines && t.machines[m].owner == l.owner);
            && (allowed && !(m in t.machines && t.machines[m].owner == user) ==> !CanAccess(t', user, m))
            && (allowed ==> !((m, user) in t'.bindings && !t'.bindings[(m, user)].revoked))
            && (!allowed ==> t' == t)
            && ((n, other) != (m, user) ==> CanAccess(t', other, n) == CanAccess(t, other, n))
  {
  }

  // ----- Stable machine ids -----

  ghost predicate AnswersOK(s: State) {
    forall k, m :: (k, m) in s.log.answers ==> HasKey(s.t, m, k)
  }

  lemma UpsertingAnswers(s: State, k: CallId, owner: UserId, key: KeyId, name: string, mid: MachineId, x: KeyId, m: MachineId)
    requires var s' := Upserting(s, k, owner, key, name, mid); (x, m) in s'.log.answers && (x, m) !in s.log.answers
    ensures HasKey(Upserting(s, k, owner, key, name, mid).t, m, x)
  {
  }

  lemma InsertionAnswers(s: State, k: CallId, owner: UserId, key: KeyId, name: string, mid: MachineId, x: KeyId, m: MachineId)
    requires var s' := Insertion(s, k, owner, key, name, mid); (x, m) in s'.log.answers && (x, m) !in s.log.answers
    ensures HasKey(Insertion(s, k, owner, key, name, mid).t, m, x)
  {
  }

  lemma AdvancedAnswers(s: State, k: CallId, key: KeyId, mid: MachineId, x: KeyId, m: MachineId)
    requires k in s.calls
    requires var s' := Advanced(s, k, key, mid); (x, m) in s'.log.answers && (x, m) !in s.log.answers
    ensures HasKey(Advanced(s, k, key, mid).t, m, x)
  {
    match s.calls[k] {
      case Inserting(owner, y, name, n) => InsertionAnswers(s, k, owner, y, name, n, x, m);
      case Remaking(h) => UpsertingAnswers(s, k, h.owner, h.key, h.name, mid, x, m);
      case _ =>
    }
  }

  /** A step adds at most one answer, and it names the machine that has the key. */
  lemma NewAnswer(s: State, l: Label, x: KeyId, m: MachineId)
    requires (x, m) in Step(s, l).log.answers && (x, m) !in s.log.answers
    ensures HasKey(Step(s, l).t, m, x)
  {
    match l {
      case Upsert(k, key, name, mid) => UpsertingAnswers(s, k, s.t.keys[key].user, key, name, mid, x, m);
      case Advance(k, key, mid) => AdvancedAnswers(s, k, key, mid, x, m);
      case _ =>
    }
  }

  lemma StepAnswers(s: State, l: Label)
    requires StateOK(s) && AnswersOK(s)
    ensures AnswersOK(Step(s, l))
  {
    StepOK(s, l);
    forall k, m | (k, m) in Step(s, l).log.answers
      ensures HasKey(Step(s, l).t, m, k)
    {
      if (k, m) in s.log.answers {
        assert HasKey(s.t, m, k);
      } else {
        NewAnswer(s, l, k, m);
      }
    }
  }

  lemma {:induction false} RunAnswers(ls: seq<Label>)
    ensures AnswersOK(Run(ls))
  {
    if ls != [] {
      RunOK(ls[..|ls| - 1]);
      RunAnswers(ls[..|ls| - 1]);
      StepAnswers(Run(ls[..|ls| - 1]), ls[|ls| - 1]);
    }
  }

  /** Under any interleaving, all successful upserts for one provider key return the same machine, which is
      owned by the key's user; upserts for different keys return different machines. */
  lemma StableMachineId(ls: seq<Label>, k: KeyId, m: MachineId, j: KeyId, n: MachineId)
    requires (k, m) in Run(ls).log.answers && (j, n) in Run(ls).log.answers
    ensures k == j <==> m == n
    ensures var t := Run(ls).t; HasKey(t, m, k) && k in t.keys && t.machines[m].owner == t.keys[k].user
  {
    RunOK(ls);
    RunAnswers(ls);
    assert HasKey(Run(ls).t, m, k) && HasKey(Run(ls).t, n, j);
  }

  lemma {:induction false} RowsAreKept(before: seq<Label>, after: seq<Label>)
    ensures Grows(Run(before).t, Run(before + after).t)
  {
    if after == [] {
      assert before + after == before;
    } else {
      assert (before + after)[..|before + after| - 1] == before + after[..|after| - 1];
      RowsAreKept(before, after[..|after| - 1]);
      RunOK(before + after[..|after| - 1]);
      StepOK(Run(before + after[..|after| - 1]), after[|after| - 1]);
      GrowsOn(Run(before).t, Run(before + after[..|after| - 1]).t, Run(before + after).t);
    }
  }

  lemma GrowsOn(a: Tables, b: Tables, c: Tables)
    requires Grows(a, b) && Grows(b, c)
    ensures Grows(a, c)
  {
  }

  /** The map from keys to machines only grows: later, a machine still has its owner and its key. */
  lemma MachinesAreForever(before: seq<Label>, after: seq<Label>, m: MachineId)
    requires m in Run(before).t.machines
    ensures var t, t' := Run(before).t, Run(before + after).t;
            m in t'.machines && t'.machines[m].owner == t.machines[m].owner && t'.machines[m].key == t.machines[m].key
  {
    RowsAreKept(before, after);
  }

  // ----- Regeneration -----

  /** The key that replaced a regenerated provider key: another key of the same user. */
  predicate HeirKeyOK(t: Tables, key: KeyId, heir: KeyId) {
    && RevokedKey(t, key) && heir in t.keys && heir != key
    && t.keys[heir].user == t.keys[key].user && t.keys[heir].provider
  }

  ghost predicate HeirsOK(s: State) {
    forall k :: k in s.log.heirs ==> HeirKeyOK(s.t, k, s.log.heirs[k])
  }

  lemma HeirKeyStays(t: Tables, t': Tables, key: KeyId, heir: KeyId)
    requires HeirKeyOK(t, key, heir) && Grows(t, t')
    ensures HeirKeyOK(t', key, heir)
  {
  }

  lemma OnlyMintsAreHeirs(s: State, l: Label)
    requires Enabled(s, l) && !(l.Advance? && s.calls[l.call].Minting?)
    ensures Next(s, l).log.heirs == s.log.heirs
  {
    if l.Advance? {
      AdvancedHistory(s, l.call, l.key, l.mid);
    } else {
      OtherHistory(s, l);
    }
  }

  lemma MintedHeir(s: State, c: CallId, key: KeyId, mid: MachineId, k: KeyId)
    requires StateOK(s) && Enabled(s, Advance(c, key, mid)) && s.calls[c].Minting?
    requires var heirs := Advanced(s, c, key, mid).log.heirs; k in heirs && (k in s.log.heirs ==> heirs[k] != s.log.heirs[k])
    ensures HeirKeyOK(Advanced(s, c, key, mid).t, k, Advanced(s, c, key, mid).log.heirs[k])
  {
    assert CallOK(s.t, s.log.closed, s.calls[c]);
  }

  lemma NewHeir(s: State, l: Label, k: KeyId)
    requires StateOK(s) && Enabled(s, l) && k in Next(s, l).log.heirs
    requires k in s.log.heirs ==> Next(s, l).log.heirs[k] != s.log.heirs[k]
    ensures HeirKeyOK(Next(s, l).t, k, Next(s, l).log.heirs[k])
  {
    if l.Advance? && s.calls[l.call].Minting? {
      MintedHeir(s, l.call, l.key, l.mid, k);
    } else {
      OnlyMintsAreHeirs(s, l);
    }
  }

  lemma StepHeirs(s: State, l: Label)
    requires StateOK(s) && HeirsOK(s)
    ensures HeirsOK(Step(s, l))
  {
    if Enabled(s, l) {
      NextTables(s, l);
      forall k | k in Next(s, l).log.heirs
        ensures HeirKeyOK(Next(s, l).t, k, Next(s, l).log.heirs[k])
      {
        if k in s.log.heirs && Next(s, l).log.heirs[k] == s.log.heirs[k] {
          HeirKeyStays(s.t, Next(s, l).t, k, s.log.heirs[k]);
        } else {
          NewHeir(s, l, k);
        }
      }
    }
  }

  lemma {:induction false} RunHeirs(ls: seq<Label>)
    ensures HeirsOK(Run(ls))
  {
    if ls != [] {
      RunOK(ls[..|ls| - 1]);
      RunHeirs(ls[..|ls| - 1]);
      StepHeirs(Run(ls[..|ls| - 1]), ls[|ls| - 1]);
    }
  }

  /** After a regeneration whose upsert succeeded only the new machine is listed: the old key's machine, a
      different one, is in nobody's listing any more, and the new one is in its owner's, who is the old one's
      user, exactly as long as the new key is live. */
  lemma RegenerationListsNew(ls: seq<Label>, key: KeyId, n: MachineId, m: MachineId, user: UserId)
    requires key in Run(ls).log.heirs && (Run(ls).log.heirs[key], n) in Run(ls).log.answers
    ensures var t := Run(ls).t;
            var heir := Run(ls).log.heirs[key];
            && HasKey(t, n, heir) && key in t.keys && t.machines[n].owner == t.keys[key].user
            && (HasKey(t, m, key) ==> m != n && m !in Listing(t, user))
            && (n in Listing(t, t.keys[key].user) <==> !RevokedKey(t, heir))
  {
    var s := Run(ls);
    RunOK(ls);
    RunAnswers(ls);
    RunHeirs(ls);
    assert HeirKeyOK(s.t, key, s.log.heirs[key]) && HasKey(s.t, n, s.log.heirs[key]);
    ListedByKey(s.t, n, s.t.keys[key].user);
    ListedByKey(s.t, m, user);
  }

  lemma ListedByKey(t: Tables, m: MachineId, user: UserId)
    requires TablesOK(t)
    ensures m in Listing(t, user) ==> m in t.machines && LiveKey(t, m)
    ensures m in t.machines && t.machines[m].owner == user && LiveKey(t, m) ==> m in Listing(t, user)
  {
    ListedTwice(t, user, m);
  }
}
