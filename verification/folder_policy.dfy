/** `FolderDomainPolicy`: creating, updating and moving folders. */
module FolderPolicy {
  import opened Symbols
  import opened FolderForest

  datatype Refusal = NotFound | CycleDetected | VersionConflict | RecoveryRequired | PayloadNotEmpty

  /** `_require_parent_active`. */
  function RequireParentActive(rows: Rows, parent: Option<Id>): (refusal: Option<Refusal>)
    ensures refusal.None? <==> (parent.Some? ==> parent.value in rows && !rows[parent.value].trashed)
    ensures refusal == Some(NotFound) <==> parent.Some? && parent.value !in rows
    ensures refusal == Some(CycleDetected) <==> parent.Some? && parent.value in rows && rows[parent.value].trashed
  {
    if parent.None? then None
    else if parent.value !in rows then Some(NotFound)
    else if rows[parent.value].trashed then Some(CycleDetected)
    else None
  }

  /** `_require_no_cycle`: climbs from the new parent until the chain ends or
      meets a folder it has seen. */
  method RequireNoCycle(rows: Rows, f: Id, newParent: Id) returns (accepted: bool)
    ensures accepted <==> Ends(rows, Some(newParent)) && !Under(rows, newParent, f)
  {
    assert Climb(rows, Some(newParent), 0) == Some(newParent);
    if newParent == f { return false; }
    var visited: set<Id> := {f};
    var current := Some(newParent);
    ghost var n: nat := 0;
    while current.Some?
      invariant current == Climb(rows, Some(newParent), n)
      invariant f in visited && forall i ::
                  0 <= i < n ==>
                    Climb(rows, Some(newParent), i).Some? && Climb(rows, Some(newParent), i).value in visited - {f}
      invariant forall x :: x in visited - {f} ==>
                  x in rows && exists i :: 0 <= i < n && Climb(rows, Some(newParent), i) == Some(x)
      decreases rows.Keys - visited, current.Some?
    {
      if current.value in visited {
        if current.value != f {
          ghost var i :| 0 <= i < n && Climb(rows, Some(newParent), i) == current;
          RepeatNeverEnds(rows, Some(newParent), i, n);
        }
        return false;
      }
      ClimbOn(rows, Some(newParent), n, 1);
      assert Climb(rows, current, 1) == Up(rows, current);
      if current.value !in rows {
        Ended(rows, Some(newParent), n + 1, f);
        return true;
      }
      visited := visited + {current.value};
      current := rows[current.value].parent;
      n := n + 1;
    }
    Ended(rows, Some(newParent), n, f);
    accepted := true;
  }

  lemma Ended(rows: Rows, at: Option<Id>, n: nat, f: Id)
    requires Climb(rows, at, n).None? && forall i :: 0 <= i < n ==> Climb(rows, at, i) != Some(f)
    ensures Ends(rows, at) && forall m: nat :: Climb(rows, at, m) != Some(f)
  {
    forall m: nat ensures Climb(rows, at, m) != Some(f) {
      if m >= n {
        ClimbOn(rows, at, n, m - n);
        PastTheEnd(rows, m - n);
      }
    }
  }

  /** On an acyclic relation: rejected exactly when the new parent is the
      folder itself or one of its descendants. */
  lemma MoveRejectedIff(rows: Rows, f: Id, newParent: Id)
    requires Acyclic(rows)
    ensures !(Ends(rows, Some(newParent)) && !Under(rows, newParent, f)) <==> Under(rows, newParent, f)
  {
    if newParent !in rows { assert Climb(rows, Some(newParent), 1) == Climb(rows, None, 0); }
  }

  /** The `parent_id` of an update: absent, null, or a folder. */
  datatype ParentField = Keep | Null | To(target: Id)

  /** The fields of a payload that this policy reads. An update may carry any
      of them together; `trash` is none when the payload has no `trashed_at`,
      and otherwise says whether the value is a timestamp. `accepted` is the
      outcome of the version check. */
  datatype Op =
    | Create(id: Id, parent: Option<Id>, trashed: bool)
    | Update(id: Id, move: ParentField, trash: Option<bool>, accepted: bool)

  /** The parent a payload names, if it names one. */
  function NamedParent(op: Op): Option<Id> {
    match op
    case Create(_, parent, _) => parent
    case Update(_, To(p), _, _) => Some(p)
    case _ => None
  }

  /** The version check and the row an update starts from. */
  function RequireRow(rows: Rows, f: Id, accepted: bool): (r: Result<Folder, Refusal>)
    ensures r.Ok? <==> f in rows && accepted && rows[f].version.Some? && rows[f].version.value >= 0
    ensures r.Ok? ==> r.value == rows[f]
  {
    if f !in rows then Err(NotFound)
    else if !accepted then Err(VersionConflict)
    else if rows[f].version.None? || rows[f].version.value < 0 then Err(RecoveryRequired)
    else Ok(rows[f])
  }

  /** The row with its version advanced. */
  function Bumped(row: Folder): Folder {
    row.(version := Some((if row.version.Some? then row.version.value else 0) + 1))
  }

  /** What an operation asks of the forest before the generic compiler runs. */
  ghost predicate ParentAllowed(rows: Rows, op: Op) {
    && RequireParentActive(rows, NamedParent(op)).None?
    && (op.Update? && op.move.To? ==> Ends(rows, Some(op.move.target)) && !Under(rows, op.move.target, op.id))
  }

  predicate RowAllowed(rows: Rows, op: Op) {
    if op.Create? then op.id !in rows else RequireRow(rows, op.id, op.accepted).Ok?
  }

  /** The row with the payload's fields set and its version advanced. */
  function Updated(row: Folder, move: ParentField, trash: Option<bool>): Folder {
    Bumped(row.(parent := match move
                          case Keep => row.parent
                          case Null => None
                          case To(p) => Some(p),
                trashed := if trash.Some? then trash.value else row.trashed))
  }

  function Written(rows: Rows, op: Op): Folder
    requires RowAllowed(rows, op)
  {
    match op
    case Create(_, parent, trashed) => Folder(parent, trashed, Some(1))
    case Update(f, move, trash, _) => Updated(rows[f], move, trash)
  }

  /** The effect of an operation; a refused one changes nothing. */
  ghost function Apply(rows: Rows, op: Op): Rows {
    if ParentAllowed(rows, op) && RowAllowed(rows, op) then rows[op.id := Written(rows, op)] else rows
  }

  /** The row an accepted operation writes, column by column: a create starts
      at version one, an update is one version later and changes the columns
      its payload names. */
  predicate RowWritten(rows: Rows, op: Op, row: Folder) {
    match op
    case Create(_, parent, trashed) => row.parent == parent && row.trashed == trashed && row.version == Some(1)
    case Update(f, move, trash, _) =>
      f in rows && rows[f].version != None && var was := rows[f];
      && row.version == Some(was.version.value + 1)
      && row.trashed == (if trash == None then was.trashed else trash.value)
      && row.parent == (if move.Keep? then was.parent else if move.Null? then None else Some(move.target))
  }

  /** An accepted operation writes that row and no other; a refused one writes none. */
  lemma ApplyOutcome(rows: Rows, op: Op)
    ensures var after := Apply(rows, op);
            if ParentAllowed(rows, op) && RowAllowed(rows, op)
            then after.Keys == rows.Keys + {op.id} && RowWritten(rows, op, after[op.id])
                 && forall f :: f in rows && f != op.id ==> after[f] == rows[f]
            else after == rows
  {
    hide ParentAllowed;
  }

  /** `compile` for `entity.create` and `entity.update`. */
  method Compile(rows: Rows, op: Op) returns (row: Result<Folder, Refusal>)
    ensures row.Ok? <==> ParentAllowed(rows, op) && RowAllowed(rows, op)
    ensures Apply(rows, op) == if row.Ok? then rows[op.id := row.value] else rows
    ensures row.Ok? ==> RowWritten(rows, op, row.value)
    ensures !ParentAllowed(rows, op) ==> row == Err(if NamedParent(op).value !in rows then NotFound else CycleDetected)
    ensures ParentAllowed(rows, op) && !RowAllowed(rows, op) ==>
              row == Err(if op.Create? || (op.id in rows && !op.accepted) then VersionConflict
                         else if op.id !in rows then NotFound else RecoveryRequired)
  {
    var refusal := RequireParentActive(rows, NamedParent(op));
    if refusal.Some? { return Err(refusal.value); }
    match op {
      case Create(f, parent, trashed) =>
        return if f in rows then Err(VersionConflict) else Ok(Folder(parent, trashed, Some(1)));
      case Update(f, move, trash, accepted) =>
        if move.To? {
          var free := RequireNoCycle(rows, f, move.target);
          if !free { return Err(CycleDetected); }
        }
        var current := RequireRow(rows, f, accepted);
        return if current.Err? then Err(current.error) else Ok(Updated(current.value, move, trash));
    }
  }

  // ------------------------------------------------------ forest preservation

  ghost predicate Forest(rows: Rows) {
    Acyclic(rows) && Closed(rows)
  }

  lemma ApplyKeepsForest(rows: Rows, op: Op)
    requires Forest(rows)
    ensures Forest(Apply(rows, op))
  {
    var after := Apply(rows, op);
    if ParentAllowed(rows, op) && RowAllowed(rows, op) {
      var f := op.id;
      var parent := Written(rows, op).parent;
      assert Reparented(rows, after, f, parent);
      match op
      case Create(_, Some(p), _) =>
        NothingUnderNewId(rows, p, f);
        ReparentIff(rows, after, f, p);
      case Create(_, None, _) => RootIsSafe(rows, after, f);
      case Update(_, Null, _, _) => RootIsSafe(rows, after, f);
      case Update(_, To(p), _, _) => ReparentIff(rows, after, f, p);
      case Update(_, Keep, _, _) => SameParents(rows, after);
    }
  }

  lemma {:induction false} SameClimb(rows: Rows, after: Rows, at: Option<Id>, n: nat)
    requires forall x :: Up(after, x) == Up(rows, x)
    ensures Climb(after, at, n) == Climb(rows, at, n)
    decreases n
  {
    if n > 0 { SameClimb(rows, after, Up(rows, at), n - 1); }
  }

  lemma SameParents(rows: Rows, after: Rows)
    requires Acyclic(rows) && after.Keys == rows.Keys && forall f :: f in rows ==> after[f].parent == rows[f].parent
    ensures Acyclic(after)
  {
    forall f | f in after ensures Ends(after, Some(f)) {
      var n: nat :| Climb(rows, Some(f), n).None?;
      SameClimb(rows, after, Some(f), n);
    }
  }

  ghost function ApplyAll(rows: Rows, ops: seq<Op>): Rows {
    if ops == [] then rows else Apply(ApplyAll(rows, ops[..|ops| - 1]), ops[|ops| - 1])
  }

  /** Every sequence of creates, moves and updates, accepted or refused, keeps
      the folders a forest. */
  lemma {:induction false} ForestPreserved(rows: Rows, ops: seq<Op>)
    requires Forest(rows)
    ensures Forest(ApplyAll(rows, ops))
    decreases |ops|
  {
    hide Forest, Apply;
    if ops != [] {
      ForestPreserved(rows, ops[..|ops| - 1]);
      ApplyKeepsForest(ApplyAll(rows, ops[..|ops| - 1]), ops[|ops| - 1]);
    }
  }

  /** An accepted create makes no cycle check: it keeps the relation acyclic
      exactly when the parent is not already under the new id, which only a
      table with a missing parent allows. */
  lemma CreateKeepsAcyclicIff(rows: Rows, f: Id, p: Id)
    requires Acyclic(rows) && ParentAllowed(rows, Create(f, Some(p), false)) && f !in rows
    ensures Acyclic(Apply(rows, Create(f, Some(p), false))) <==> !Under(rows, p, f)
  {
    ReparentIff(rows, Apply(rows, Create(f, Some(p), false)), f, p);
  }

  /** The smallest such table: `a` names the missing `b`, then `b` is created below `a`. */
  lemma CreateCanCloseCycle(a: Id, b: Id)
    requires a != b
    ensures var rows: Rows := map[a := Folder(Some(b), false, Some(1))];
            Acyclic(rows) && ParentAllowed(rows, Create(b, Some(a), false))
            && !Acyclic(Apply(rows, Create(b, Some(a), false)))
  {
    var rows: Rows := map[a := Folder(Some(b), false, Some(1))];
    assert Climb(rows, Some(a), 2) == Climb(rows, Some(b), 1) == Climb(rows, None, 0);
    assert Climb(rows, Some(a), 1) == Climb(rows, Some(b), 0) == Some(b);
    CreateKeepsAcyclicIff(rows, b, a);
  }

  // ---------------------------------------------------------- active parents

  /** No active folder has a trashed parent. */
  predicate Upright(rows: Rows) {
    forall f :: f in rows && !rows[f].trashed && rows[f].parent.Some? && rows[f].parent.value in rows
      ==> !rows[rows[f].parent.value].trashed
  }

  predicate HasActiveChild(rows: Rows, f: Id) {
    exists g :: g in rows && rows[g].parent == Some(f) && !rows[g].trashed
  }

  /** An accepted operation keeps active folders below active ones exactly
      when the row it leaves is trashed and had no active child, or is active
      and has no trashed parent. */
  lemma UprightIff(rows: Rows, op: Op)
    requires Forest(rows) && Upright(rows) && ParentAllowed(rows, op) && RowAllowed(rows, op)
    ensures var row := Written(rows, op);
            && (row.parent.Some? ==> row.parent.value in rows)
            && (Upright(Apply(rows, op)) <==>
                if row.trashed then !HasActiveChild(rows, op.id)
                else row.parent.Some? ==> !rows[row.parent.value].trashed)
  {
    var after, f, row := Apply(rows, op), op.id, Written(rows, op);
    NotOwnParent(rows, f);
    assert op.Update? && op.move.To? ==> op.move.target != f by { assert Climb(rows, Some(f), 0) == Some(f); }
    if row.trashed && HasActiveChild(rows, f) {
      var g :| g in rows && rows[g].parent == Some(f) && !rows[g].trashed;
      assert g in after && !after[g].trashed && after[g].parent == Some(f) && after[f].trashed;
    } else if !row.trashed && row.parent.Some? && rows[row.parent.value].trashed {
      assert f in after && !after[f].trashed && after[f].parent == row.parent && after[row.parent.value].trashed;
    } else {
      forall g | g in after && !after[g].trashed && after[g].parent.Some? && after[g].parent.value in after
        ensures !after[after[g].parent.value].trashed
      {
        var p := after[g].parent.value;
        assert g != f ==> after[g] == rows[g];
        if p == f {
          assert g != f && rows[g].parent == Some(f) && !rows[g].trashed;
          assert f in rows && HasActiveChild(rows, f);
        } else {
          assert after[p] == rows[p];
        }
      }
    }
  }

  /** Only an update whose payload carries `trashed_at` can break it: by
      trashing a folder that has active children, or by restoring one whose
      parent stays trashed. */
  lemma OnlyTrashBreaks(rows: Rows, op: Op)
    requires Forest(rows) && Upright(rows) && ParentAllowed(rows, op) && RowAllowed(rows, op)
    ensures !Upright(Apply(rows, op)) ==>
              && op.Update? && op.trash.Some?
              && (op.trash.value ==> HasActiveChild(rows, op.id))
              && (!op.trash.value ==> op.move.Keep?)
  {
    UprightIff(rows, op);
  }

  lemma NotOwnParent(rows: Rows, f: Id)
    requires Acyclic(rows)
    ensures f in rows ==> rows[f].parent != Some(f)
  {
    if f in rows && rows[f].parent == Some(f) {
      assert Climb(rows, Some(f), 1) == Climb(rows, Some(f), 0);
      RepeatNeverEnds(rows, Some(f), 0, 1);
    }
  }
}
