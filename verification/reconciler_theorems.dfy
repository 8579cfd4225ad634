/** Claim-guarded replay over every sequence of reconcile calls. */
module ReconcilerTheorems {
  import opened Symbols
  import opened CoordinationRows
  import opened ReconcilerProtocol
  import opened ReconcilerOutcomes

  /** `_reconcile_one` executes the task command exactly when no stored outcome
      exists, the receipt is nonterminal and claimed by this very root, and
      both replay flags are set. */
  lemma ExecutesIff(s: Space, root: Text, replaySafe: bool, c: Text, verdict: Verdict, reply: TaskReply)
    ensures ReconcileOne(s, root, replaySafe, c, verdict, reply).executed <==>
              MayExecute(s, root, replaySafe, c, verdict)
  {
    hide Record, Write, AfterTask, View;
  }

  // --------------------------------------------------- what every step keeps

  /** The stored outcome of `c` is one that `state` reports. */
  predicate ConcludedAs(s: Space, c: Text, state: ReceiptState) {
    c in s.tasks && s.tasks[c].Concluded? && ReportsOutcome(s.tasks[c].outcome, state)
  }

  /** A receipt that reports an outcome reports the stored one. */
  ghost predicate Truthful(s: Space) {
    forall c :: c in s.receipts && s.receipts[c].state in {Succeeded, Failed, Conflicted} ==>
      ConcludedAs(s, c, s.receipts[c].state)
  }

  /** Claims come from admissions. */
  ghost predicate ClaimsAdmitted(s: Space) {
    forall c :: c in s.receipts && s.receipts[c].column.Holds? ==> s.receipts[c].column.claim.root in s.admissions
  }

  predicate GuardedCall(call: TaskCall) {
    && call.envelopeSafe && call.callerSafe
    && call.receipt.Some? && !Terminal(call.receipt.value.state)
    && call.receipt.value.column == Holds(ClaimedBy(call.root))
    && (call.row.None? || call.row == Some(Unfinished))
  }

  ghost predicate Guarded(s: Space) {
    forall i :: 0 <= i < |s.log| ==> GuardedCall(s.log[i])
  }

  /** An `unknown` receipt mutation of a root ended that root's claim. */
  ghost predicate TimeoutsNoted(s: Space) {
    forall r, c :: Under(r, c, Unknown) in s.written ==> Spent(s, r, c)
  }

  ghost predicate Inv(s: Space) {
    Truthful(s) && ClaimsAdmitted(s) && Guarded(s) && TimeoutsNoted(s)
  }

  /** `root` has had its admission and does not hold the claim on `c`. */
  predicate Spent(s: Space, root: Text, c: Text) {
    root in s.admissions && (c in s.receipts ==> s.receipts[c].column != Holds(ClaimedBy(root)))
  }

  /** No execution of `c` by `root` was added. */
  predicate NotCalled(s: Space, t: Space, root: Text, c: Text) {
    |s.log| <= |t.log| && forall i :: |s.log| <= i < |t.log| ==> t.log[i].root != root || t.log[i].command != c
  }

  /** What is never taken back. */
  ghost predicate Later(s: Space, t: Space) {
    && t.envelopes == s.envelopes
    && (forall c ::
          c in s.receipts && Terminal(s.receipts[c].state) ==> c in t.receipts && t.receipts[c] == s.receipts[c])
    && (forall r :: r in s.admissions ==> r in t.admissions && t.admissions[r] == s.admissions[r])
    && (forall c :: c in s.tasks && s.tasks[c] != Unfinished ==> c in t.tasks && t.tasks[c] == s.tasks[c])
    && (forall r, c :: Spent(s, r, c) ==> Spent(t, r, c) && NotCalled(s, t, r, c))
    && |s.log| <= |t.log| && t.log[..|s.log|] == s.log
  }

  lemma LaterItself(s: Space)
    ensures Later(s, s)
  {
  }

  lemma LaterStill(s: Space, t: Space, u: Space)
    requires Later(s, t) && Later(t, u)
    ensures Later(s, u)
  {
    forall r, c | Spent(s, r, c) ensures Spent(u, r, c) && NotCalled(s, u, r, c) {
      assert Spent(t, r, c) && NotCalled(s, t, r, c) && NotCalled(t, u, r, c);
      forall i | |s.log| <= i < |u.log| ensures u.log[i].root != r || u.log[i].command != c {
        if i < |t.log| { assert u.log[i] == u.log[..|t.log|][i]; }
      }
    }
    assert u.log[..|s.log|] == u.log[..|t.log|][..|s.log|];
  }

  // ------------------------------------------------------------------- steps

  lemma WriteKeeps(s: Space, c: Text, state: ReceiptState, column: ClaimColumn, reservedKey: bool,
                   expected: Option<Claim>)
    requires Inv(s)
    requires state in {Succeeded, Failed, Conflicted} ==> ConcludedAs(s, c, state)
    requires column.Holds? ==> column.claim.FinishedUnknown? && column.claim.root in s.admissions
    requires state == Unknown ==>
               expected.Some? && column == Holds(FinishedUnknown(expected.value.root))
               && WriteAllowed(s, c, Unknown, column, false, expected) && !reservedKey
    ensures var t := Write(s, c, state, column, reservedKey, expected).0; Inv(t) && Later(s, t) && t.log == s.log
  {
    hide View, ReportsOutcome, GuardedCall;
  }

  /** The receipt is nonterminal and carries this claim. */
  predicate Awaits(s: Space, c: Text, claim: Claim) {
    c in s.envelopes && c in s.receipts && Nonterminal(s.receipts[c].state) && s.receipts[c].column == Holds(claim)
  }

  lemma RecordKeeps(s: Space, c: Text, outcome: Option<TaskOutcome>, expected: Option<Claim>)
    requires Inv(s)
    requires outcome.Some? ==> c in s.tasks && s.tasks[c] == Concluded(outcome.value)
    requires expected.Some? ==> expected.value.root in s.admissions
    requires outcome.None? ==> expected.Some? && Awaits(s, c, expected.value)
    ensures var t := Record(s, c, outcome, expected).0; Inv(t) && Later(s, t) && t.log == s.log
  {
    hide Inv, Later, Write;
    if outcome.None? {
      assert WriteAllowed(s, c, Unknown, Holds(FinishedUnknown(expected.value.root)), false, expected);
    }
    hide WriteAllowed;
    match outcome
    case None => WriteKeeps(s, c, Unknown,
                            if expected.Some? then Holds(FinishedUnknown(expected.value.root))
                               else NoClaim, false, expected);
    case Some(known) => WriteKeeps(s, c, StateOf(known), NoClaim, known.Accepted? && known.reservedKey, expected);
  }

  lemma ClaimRoot(s: Space, c: Text)
    requires ClaimsAdmitted(s)
    ensures var claim := CurrentClaim(Lookup(s.receipts, c));
            claim.Ok? && claim.value.Some? ==> claim.value.value.root in s.admissions
  {
  }

  lemma SettleKeeps(s: Space, root: Text, replaySafe: bool, c: Text, verdict: Verdict)
    requires Inv(s) && Settle(s, root, replaySafe, c, verdict).Some?
    ensures var t := Settle(s, root, replaySafe, c, verdict).value.space; Inv(t) && Later(s, t) && t.log == s.log
  {
    LaterItself(s);
    ClaimRoot(s, c);
    hide Inv, Later, Record, Write, CurrentClaim, View;
    if c in s.tasks && s.tasks[c].Concluded? {
      var claim := CurrentClaim(Lookup(s.receipts, c));
      if claim.Ok? { RecordKeeps(s, c, Some(s.tasks[c].outcome), claim.value); }
    }
    WriteKeeps(s, c, Pending, NoClaim, false, None);
  }

  /** The execution itself: logged under its guard, its stored outcome final. */
  lemma CallKeeps(s: Space, root: Text, replaySafe: bool, c: Text, reply: TaskReply, verdict: Verdict)
    requires Inv(s) && MayExecute(s, root, replaySafe, c, verdict)
    ensures var call := TaskCall(root, c, Lookup(s.receipts, c), Lookup(s.tasks, c), s.envelopes[c].replaySafe,
                                 replaySafe);
            var t := AfterTask(s, c, reply).(log := s.log + [call]);
            && Inv(t) && Later(s, t) && root in t.admissions && Awaits(t, c, ClaimedBy(root))
            && (reply.Replies? ==> c in t.tasks && t.tasks[c] == Concluded(reply.outcome))
  {
    hide ReportsOutcome;
  }

  lemma ReconcileKeeps(s: Space, root: Text, replaySafe: bool, c: Text, verdict: Verdict, reply: TaskReply)
    requires Inv(s)
    ensures var t := ReconcileOne(s, root, replaySafe, c, verdict, reply).space; Inv(t) && Later(s, t)
  {
    ExecutesIff(s, root, replaySafe, c, verdict, reply);
    hide Inv, Later, Record, AfterTask, MayExecute, Awaits;
    if Settle(s, root, replaySafe, c, verdict).Some? {
      hide Settle;
      SettleKeeps(s, root, replaySafe, c, verdict);
    } else {
      hide Settle;
      CallKeeps(s, root, replaySafe, c, reply, verdict);
      var call := TaskCall(root, c, Lookup(s.receipts, c), Lookup(s.tasks, c), s.envelopes[c].replaySafe, replaySafe);
      var executed := AfterTask(s, c, reply).(log := s.log + [call]);
      var t := ReconcileOne(s, root, replaySafe, c, verdict, reply).space;
      match reply
      case Dies(_) =>
      case Replies(outcome) =>
        RecordKeeps(executed, c, Some(outcome), Some(ClaimedBy(root)));
        LaterStill(s, executed, t);
      case TimesOut(_) =>
        RecordKeeps(executed, c, None, Some(ClaimedBy(root)));
        LaterStill(s, executed, t);
    }
  }

  /** Admission writes a claim or an abandonment over a row that is not
      terminal, and only for a root that had no admission before. */
  lemma AdmitWrites(s: Space, root: Text, request: Request, c: Text)
    requires AdmitOne(s, root, request, c).Ok? && AdmitOne(s, root, request, c).value.0.Some?
    ensures var row := AdmitOne(s, root, request, c).value.0.value;
            && (row == Receipt(Abandoned, NoClaim) || (Nonterminal(row.state) && row.column == Holds(ClaimedBy(root))))
            && (c in s.receipts ==> !Terminal(s.receipts[c].state))
  {
  }

  /** What an admitted id gets: a claim exactly when the command was never
      journaled, may be replayed, and no other root holds it; an abandonment
      exactly when it was asked for, and then nothing was ever journaled and
      nobody holds the claim; otherwise it is only observed. */
  lemma AdmissionIff(s: Space, root: Text, request: Request, c: Text)
    requires AdmitOne(s, root, request, c).Ok?
    ensures var verdict := AdmitOne(s, root, request, c).value.1;
            var claim := CurrentClaim(Lookup(s.receipts, c)).value;
            var settled := (c in s.receipts && Terminal(s.receipts[c].state))
                || (c in s.tasks && s.tasks[c] != Unfinished);
            && CurrentClaim(Lookup(s.receipts, c)).Ok? && c in s.envelopes && s.envelopes[c].session == request.session
            && (verdict == ReplayClaimed(root) <==>
                  !settled && c !in request.abandon && c !in s.tasks && request.replaySafe && s.envelopes[c].replaySafe
                  && (claim.Some? && claim.value.ClaimedBy? ==> claim.value.root == root))
            && (verdict.AbandonedBy? <==> !settled && c in request.abandon)
            && (verdict.AbandonedBy? ==>
                  verdict == AbandonedBy(root, request.at) && c !in s.tasks && !(claim.Some? && claim.value.ClaimedBy?))
            && (verdict.Observe? || verdict.AbandonedBy? || verdict == ReplayClaimed(root))
  {
  }

  lemma AdmitKeeps(s: Space, root: Text, request: Request)
    requires Inv(s)
    ensures var t := Admit(s, root, request).0; Inv(t) && Later(s, t)
  {
    hide AdmitOne, AdmitAll, Verdicts, Inv, Later;
    LaterItself(s);
    if root !in s.admissions {
      match AdmitAll(s, root, request, request.ids)
      case Err(trouble) =>
        assert s.receipts + map[] == s.receipts;
        Admitted(s, root, Admission(request, Err(trouble)), map[]);
      case Ok(plans) =>
        var rows := NewRows(plans);
        forall c | c in rows ensures NewRow(s, root, c, rows[c]) { AdmitWrites(s, root, request, c); }
        Admitted(s, root, Admission(request, Ok(Verdicts(plans))), rows);
    }
  }

  predicate NewRow(s: Space, root: Text, c: Text, row: Receipt) {
    && (row == Receipt(Abandoned, NoClaim) || (Nonterminal(row.state) && row.column == Holds(ClaimedBy(root))))
    && (c in s.receipts ==> !Terminal(s.receipts[c].state))
  }

  lemma Admitted(s: Space, root: Text, admission: Admission, rows: map<Text, Receipt>)
    requires Inv(s) && root !in s.admissions && forall c :: c in rows ==> NewRow(s, root, c, rows[c])
    ensures var t := s.(admissions := s.admissions[root := admission], receipts := s.receipts + rows);
            Inv(t) && Later(s, t)
  {
    hide ReportsOutcome, GuardedCall;
  }

  lemma NextKeeps(s: Space, event: Event)
    requires Inv(s)
    ensures Inv(Next(s, event)) && Later(s, Next(s, event))
  {
    hide Inv, Later, Admit, ReconcileOne;
    match event
    case Settles(c, row) => SettlingKeeps(s, c, row);
    case Admits(root, request) => AdmitKeeps(s, root, request);
    case Reconciles(root, c, reply) =>
      LaterItself(s);
      if AdmittedFor(s, root, c) {
        var admission := s.admissions[root];
        ReconcileKeeps(s, root, admission.request.replaySafe, c, admission.verdicts.value[c], reply);
      }
  }

  lemma SettlingKeeps(s: Space, c: Text, row: TaskRow)
    requires Inv(s)
    ensures var t := Next(s, Settles(c, row)); Inv(t) && Later(s, t)
  {
    hide ReportsOutcome;
  }

  lemma {:induction false} RunKeeps(s: Space, events: seq<Event>)
    requires Inv(s)
    ensures Inv(Run(s, events)) && Later(s, Run(s, events))
  {
    hide Inv, Later, Next;
    if events == [] {
      LaterItself(s);
    } else {
      var shorter := events[..|events| - 1];
      RunKeeps(s, shorter);
      NextKeeps(Run(s, shorter), events[|events| - 1]);
      LaterStill(s, Run(s, shorter), Run(s, events));
    }
  }

  /** A timed-out execution always ends its own claim: whatever state the
      calls before it left, the receipt becomes unknown and finished. */
  lemma TimeoutEndsClaim(s: Space, root: Text, replaySafe: bool, c: Text, verdict: Verdict, row: Option<TaskRow>)
    requires Inv(s) && MayExecute(s, root, replaySafe, c, verdict)
    ensures var step := ReconcileOne(s, root, replaySafe, c, verdict, TimesOut(row));
            step.executed && step.space.receipts[c] == Receipt(Unknown, Holds(FinishedUnknown(root)))
            && step.answer == Ok(step.space.receipts[c])
  {
    ExecutesIff(s, root, replaySafe, c, verdict, TimesOut(row));
    assert Under(root, c, Unknown) !in s.written by { assert !Spent(s, root, c); }
    hide Inv, View;
  }

  /** While a root holds the claim on a command, no block of any call takes it
      over: the claim stays, or ends in an unknown or a terminal receipt. */
  lemma ClaimIsNotStolen(s: Space, c: Text, root: Text, event: Event)
    requires Inv(s) && Awaits(s, c, ClaimedBy(root))
    ensures ClaimMoves(s, Next(s, event), c, root)
  {
    hide Inv, Admit, ReconcileOne;
    match event
    case Settles(_, _) =>
    case Admits(caller, request) => AdmitKeepsClaim(s, caller, request, c, root);
    case Reconciles(caller, d, reply) =>
      if AdmittedFor(s, caller, d) {
        var admission := s.admissions[caller];
        OneKeepsClaim(s, caller, admission.request.replaySafe, d, admission.verdicts.value[d], reply, c, root);
      }
  }

  predicate ClaimMoves(s: Space, t: Space, c: Text, root: Text) {
    c in s.receipts && c in t.receipts
    && (t.receipts[c] == s.receipts[c] || t.receipts[c] == Receipt(Unknown, Holds(FinishedUnknown(root)))
        || t.receipts[c].state in {Succeeded, Failed, Conflicted})
  }

  lemma AdmitKeepsClaim(s: Space, caller: Text, request: Request, c: Text, root: Text)
    requires Awaits(s, c, ClaimedBy(root))
    ensures var t := Admit(s, caller, request).0; Awaits(t, c, ClaimedBy(root)) && t.receipts[c] == s.receipts[c]
  {
    hide AdmitAll;
    if caller !in s.admissions && AdmitAll(s, caller, request, request.ids).Ok? {
      var plans := AdmitAll(s, caller, request, request.ids).value;
      if c in plans { assert AdmitOne(s, caller, request, c) == Ok(plans[c]); }
    }
  }

  predicate Held(s: Space, c: Text, root: Text) {
    c in s.envelopes && c in s.receipts
    && (Awaits(s, c, ClaimedBy(root)) || s.receipts[c] == Receipt(Unknown, Holds(FinishedUnknown(root)))
        || s.receipts[c].state in {Succeeded, Failed, Conflicted})
  }

  /** The claim on `c` is kept as it is, or it has ended. */
  predicate KeepsHeld(s: Space, t: Space, c: Text, root: Text) {
    && Held(t, c, root)
    && (Awaits(t, c, ClaimedBy(root)) ==> Awaits(s, c, ClaimedBy(root)) && t.receipts[c] == s.receipts[c])
  }

  lemma WriteKeepsHeld(s: Space, d: Text, state: ReceiptState, column: ClaimColumn, reservedKey: bool,
                       expected: Option<Claim>, c: Text, root: Text)
    requires Held(s, c, root)
    requires || (state in {Succeeded, Failed, Conflicted} && column == NoClaim)
             || (state == Unknown && expected.Some? && column == Holds(FinishedUnknown(expected.value.root)))
             || (state == Pending && column == NoClaim && expected.None?)
    ensures KeepsHeld(s, Write(s, d, state, column, reservedKey, expected).0, c, root)
  {
    hide View;
  }

  lemma RecordKeepsHeld(s: Space, d: Text, outcome: Option<TaskOutcome>, expected: Option<Claim>, c: Text, root: Text)
    requires Held(s, c, root) && (outcome.None? ==> expected.Some?)
    ensures KeepsHeld(s, Record(s, d, outcome, expected).0, c, root)
  {
    hide Held, KeepsHeld, Write;
    match outcome
    case None => WriteKeepsHeld(s, d, Unknown, Holds(FinishedUnknown(expected.value.root)), false, expected, c, root);
    case Some(known) => WriteKeepsHeld(s, d, StateOf(known), NoClaim, known.Accepted? && known.reservedKey, expected,
                                       c, root);
  }

  lemma OneKeepsClaim(s: Space, caller: Text, replaySafe: bool, d: Text, verdict: Verdict, reply: TaskReply, c: Text,
                      root: Text)
    requires Held(s, c, root)
    ensures KeepsHeld(s, ReconcileOne(s, caller, replaySafe, d, verdict, reply).space, c, root)
  {
    if Settle(s, caller, replaySafe, d, verdict).Some? {
      hide Settle, KeepsHeld;
      SettleKeepsHeld(s, caller, replaySafe, d, verdict, c, root);
    } else {
      hide KeepsHeld;
      ExecutionKeepsHeld(s, caller, replaySafe, d, verdict, reply, c, root);
    }
  }

  lemma SettleKeepsHeld(s: Space, caller: Text, replaySafe: bool, d: Text, verdict: Verdict, c: Text, root: Text)
    requires Held(s, c, root) && Settle(s, caller, replaySafe, d, verdict).Some?
    ensures KeepsHeld(s, Settle(s, caller, replaySafe, d, verdict).value.space, c, root)
  {
    assert KeepsHeld(s, s, c, root);
    hide Held, KeepsHeld, Record, Write, View, CurrentClaim;
    WriteKeepsHeld(s, d, Pending, NoClaim, false, None, c, root);
    if d in s.tasks && s.tasks[d].Concluded? {
      var claim := CurrentClaim(Lookup(s.receipts, d));
      if claim.Ok? { RecordKeepsHeld(s, d, Some(s.tasks[d].outcome), claim.value, c, root); }
    }
  }

  lemma ExecutionKeepsHeld(s: Space, caller: Text, replaySafe: bool, d: Text, verdict: Verdict, reply: TaskReply,
                           c: Text, root: Text)
    requires Held(s, c, root) && Settle(s, caller, replaySafe, d, verdict).None?
    ensures KeepsHeld(s, ReconcileOne(s, caller, replaySafe, d, verdict, reply).space, c, root)
  {
    hide Settle, Record, View, Held, KeepsHeld, AfterTask;
    var call := TaskCall(caller, d, Lookup(s.receipts, d), Lookup(s.tasks, d), s.envelopes[d].replaySafe, replaySafe);
    var executed := AfterTask(s, d, reply).(log := s.log + [call]);
    TaskKeepsHeld(s, d, reply, call, c, root);
    var outcome := if reply.Replies? then Some(reply.outcome) else None;
    var t := if reply.Dies? then executed else Record(executed, d, outcome, Some(ClaimedBy(caller))).0;
    RecordKeepsHeld(executed, d, outcome, Some(ClaimedBy(caller)), c, root);
    OnceMore(s, executed, t, c, root);
    assert ReconcileOne(s, caller, replaySafe, d, verdict, reply).space == t;
  }

  lemma TaskKeepsHeld(s: Space, d: Text, reply: TaskReply, call: TaskCall, c: Text, root: Text)
    requires Held(s, c, root)
    ensures var t := AfterTask(s, d, reply).(log := s.log + [call]);
            Held(t, c, root) && KeepsHeld(s, t, c, root) && KeepsHeld(t, t, c, root)
  {
  }

  lemma OnceMore(s: Space, t: Space, u: Space, c: Text, root: Text)
    requires KeepsHeld(s, t, c, root) && KeepsHeld(t, u, c, root)
    ensures KeepsHeld(s, u, c, root)
  {
  }

  // --------------------------------------------------------- whole calls

  lemma AdmissionsStay(s: Space, root: Text, replaySafe: bool, c: Text, verdict: Verdict, reply: TaskReply)
    ensures ReconcileOne(s, root, replaySafe, c, verdict, reply).space.admissions == s.admissions
  {
    hide View, WriteAllowed, Decode, StateOf;
  }

  /** One envelope after the other is a run of blocks. */
  lemma {:induction false} EachIsRun(s: Space, root: Text, request: Request, verdicts: map<Text, Verdict>,
                                     ids: seq<Text>, world: World)
    returns (events: seq<Event>)
    requires root in s.admissions && s.admissions[root] == Admission(request, Ok(verdicts))
    requires forall i :: 0 <= i < |ids| ==> ids[i] in verdicts
    ensures Run(s, events) == ReconcileEach(s, root, request, verdicts, ids, world).space
    ensures Run(s, events).admissions == s.admissions
    ensures forall i :: 0 <= i < |events| ==> events[i].Reconciles? && events[i].root == root && events[i].c in ids
  {
    hide ReconcileOne;
    events := [];
    if ids != [] {
      var n := |ids| - 1;
      var earlier := ReconcileEach(s, root, request, verdicts, ids[..n], world);
      events := EachIsRun(s, root, request, verdicts, ids[..n], world);
      if !(n > 0 && earlier.answer.Err?) {
        var last := Reconciles(root, ids[n], world(ids[n]));
        AdmissionsStay(earlier.space, root, request.replaySafe, ids[n], verdicts[ids[n]], world(ids[n]));
        assert (events + [last])[..|events|] == events;
        events := events + [last];
      }
    }
  }

  /** A call that nothing cuts or interrupts is one such run, so what holds of
      every run holds of every sequence of calls, whole or cut. */
  lemma CallIsRun(s: Space, root: Text, request: Request, world: World) returns (events: seq<Event>)
    ensures WholeCall(s, root, request, world) == Run(s, events)
    ensures events != [] && events[0] == Admits(root, request)
    ensures forall i :: 1 <= i < |events| ==>
              events[i].Reconciles? && events[i].root == root && events[i].c in request.ids
  {
    var (admitted, verdicts) := Admit(s, root, request);
    AdmitJournals(s, root, request);
    hide Admit;
    events := [Admits(root, request)];
    assert events[..0] == [] && Run(s, events) == admitted;
    if verdicts.Ok? && forall i :: 0 <= i < |request.ids| ==> request.ids[i] in verdicts.value {
      hide ReconcileEach;
      var rest := EachIsRun(admitted, root, request, verdicts.value, request.ids, world);
      RunOn(s, events, rest);
      events := events + rest;
    }
  }

  lemma AdmitJournals(s: Space, root: Text, request: Request)
    ensures var (admitted, verdicts) := Admit(s, root, request);
            verdicts.Ok? ==> root in admitted.admissions && admitted.admissions[root] == Admission(request, verdicts)
  {
    hide AdmitAll, NewRows;
  }

  lemma {:induction false} RunOn(s: Space, first: seq<Event>, rest: seq<Event>)
    ensures Run(s, first + rest) == Run(Run(s, first), rest)
    decreases |rest|
  {
    hide Next;
    if rest == [] {
      assert first + rest == first;
    } else {
      var n := |rest| - 1;
      assert (first + rest)[..|first + rest| - 1] == first + rest[..n];
      RunOn(s, first, rest[..n]);
    }
  }

  /** `not_needed` is immutable for the receipt policy but not for admission,
      which abandons or claims it like a pending receipt. */
  lemma NotNeededIsReopened(c: Text, root: Text, session: Text)
    ensures var s := Space(map[c := CommandEnvelope(session, true, true)], map[c := Receipt(NotNeeded, NoClaim)],
                           map[], {}, map[], []);
            Admit(s, root, Request(session, [c], {}, true, Plain(""))).0.receipts[c] ==
              Receipt(Pending, Holds(ClaimedBy(root)))
  {
    var s := Space(map[c := CommandEnvelope(session, true, true)], map[c := Receipt(NotNeeded, NoClaim)], map[], {},
                   map[], []);
    var request := Request(session, [c], {}, true, Plain(""));
    var plans := AdmitAll(s, root, request, request.ids).value;
    assert request.ids[0] == c;
    assert c in plans;
    assert AdmitOne(s, root, request, c) == Ok(plans[c]);
  }

  // ---------------------------------------------------------------- theorems

  /** Before any reconcile call; receipts that report an outcome are true. */
  ghost predicate Untried(s: Space) {
    Truthful(s) && s.log == [] && ClaimsAdmitted(s) && forall op :: op in s.written ==> op.Own?
  }

  /** In every run: every execution had its guard, every terminal receipt is
      final, and it reports the stored outcome. */
  lemma ReplayIsGuarded(s: Space, events: seq<Event>)
    requires Untried(s)
    ensures forall i :: 0 <= i < |Run(s, events).log| ==> GuardedCall(Run(s, events).log[i])
    ensures forall c :: c in s.receipts && Terminal(s.receipts[c].state) ==>
              c in Run(s, events).receipts && Run(s, events).receipts[c] == s.receipts[c]
    ensures Truthful(Run(s, events))
  {
    RunKeeps(s, events);
  }

  /** What a receipt tells is what happened, in every run: a succeeded command
      was accepted, a conflict is one of three rejections, and a failed command
      was rejected for another reason. */
  lemma ReceiptsTellTheOutcome(s: Space, events: seq<Event>, c: Text)
    requires Untried(s) && c in Run(s, events).receipts
    ensures var t := Run(s, events);
            var conflicts := {"version_conflict", "work_item_structure_changed", "invalid_work_item_tree"};
            && (t.receipts[c].state == Succeeded ==>
                  c in t.tasks && t.tasks[c].Concluded? && t.tasks[c].outcome.Accepted?)
            && (t.receipts[c].state == Conflicted ==>
                  c in t.tasks && t.tasks[c].Concluded? && t.tasks[c].outcome.RejectedAs?
                  && t.tasks[c].outcome.code in conflicts)
            && (t.receipts[c].state == Failed ==>
                  c in t.tasks && t.tasks[c].Concluded? && t.tasks[c].outcome.RejectedAs?
                  && t.tasks[c].outcome.code !in conflicts)
  {
    ReplayIsGuarded(s, events);
    hide Run, Untried;
  }

  /** Once a timeout is recorded as `replay_finished_unknown`, that claim never
      executes again, whatever is called afterwards and by whom. */
  lemma FinishedClaimNeverExecutes(s: Space, before: seq<Event>, after: seq<Event>, root: Text, c: Text)
    requires Untried(s)
    requires c in Run(s, before).receipts && Run(s, before).receipts[c].column == Holds(FinishedUnknown(root))
    ensures NotCalled(Run(s, before), Run(Run(s, before), after), root, c)
    ensures Spent(Run(Run(s, before), after), root, c)
  {
    RunKeeps(s, before);
    RunKeeps(Run(s, before), after);
    assert Spent(Run(s, before), root, c);
  }
}
