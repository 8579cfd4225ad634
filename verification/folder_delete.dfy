/** `_compile_cascade_soft_delete`: one command that trashes a folder and every
    active descendant, and detaches the notes and quick notes they hold. */
module FolderDelete {
  import opened Symbols
  import opened FolderForest
  import opened FolderPolicy
  import opened FolderCascade

  /** `markdown` says whether the overlay has the note's path and Markdown. */
  datatype Note = Note(folder: Option<Id>, trashed: bool, version: Option<int>, markdown: bool)

  datatype QuickNote = QuickNote(folder: Option<Id>, version: Option<int>)

  datatype Tables = Tables(folders: Rows, notes: map<Id, Note>, quick: map<Id, QuickNote>)

  /** One row update, with its before and after image. */
  datatype DbPlan =
    | FolderWrite(id: Id, folderBefore: Folder, folderAfter: Folder)
    | NoteWrite(id: Id, noteBefore: Note, noteAfter: Note)
    | QuickWrite(id: Id, quickBefore: QuickNote, quickAfter: QuickNote)

  datatype Target = OfFolder(id: Id) | OfNote(id: Id) | OfQuick(id: Id)

  datatype Projection = Projection(target: Target, ordinal: nat)

  datatype Command = Command(plans: seq<DbPlan>, projections: seq<Projection>)

  function TargetOf(plan: DbPlan): Target {
    match plan
    case FolderWrite(id, _, _) => OfFolder(id)
    case NoteWrite(id, _, _) => OfNote(id)
    case QuickWrite(id, _, _) => OfQuick(id)
  }

  function NextVersion(version: Option<int>): Option<int> {
    Some((if version.Some? then version.value else 0) + 1)
  }

  function TrashFolder(row: Folder): Folder {
    row.(trashed := true, version := NextVersion(row.version))
  }

  function DetachNote(row: Note): Note {
    row.(folder := None, version := NextVersion(row.version))
  }

  function DetachQuick(row: QuickNote): QuickNote {
    row.(folder := None, version := NextVersion(row.version))
  }

  /** The folders a cascade trashes. */
  ghost predicate Doomed(rows: Rows, root: Id, f: Id) {
    f == root || ActiveBelow(rows, f, root)
  }

  predicate Holds(folder: Option<Id>, ids: seq<Id>) {
    folder.Some? && folder.value in ids
  }

  // -------------------------------------------------------------- the compiler

  predicate Blocks(note: Note, ids: seq<Id>) {
    Holds(note.folder, ids) && !note.trashed && !note.markdown
  }

  /** Consecutive ordinals for a note's projections, from `offset`. */
  function NoteProjections(id: Id, count: nat, offset: nat): (r: seq<Projection>)
    ensures |r| == count && forall i :: 0 <= i < count ==> r[i] == Projection(OfNote(id), offset + i)
  {
    seq(count, i requires 0 <= i < count => Projection(OfNote(id), offset + i))
  }

  /** One version later; a row without a version counts as version zero. */
  predicate Advances(before: Option<int>, after: Option<int>) {
    match before
    case None => after == Some(1)
    case Some(version) => after == Some(version + 1)
  }

  /** A trashed folder stays where it is. */
  predicate TrashedFrom(before: Folder, after: Folder) {
    after.trashed && after.parent == before.parent && Advances(before.version, after.version)
  }

  /** A detached note keeps everything but its folder. */
  predicate NoteDetachedFrom(before: Note, after: Note) {
    && after.folder == None && after.trashed == before.trashed && after.markdown == before.markdown
    && Advances(before.version, after.version)
  }

  predicate QuickDetachedFrom(before: QuickNote, after: QuickNote) {
    after.folder == None && Advances(before.version, after.version)
  }

  /** The plans describe updates of existing rows by what the cascade does. */
  predicate Correct(t: Tables, ids: seq<Id>, plan: DbPlan) {
    match plan
    case FolderWrite(id, before, after) =>
      id in ids && id in t.folders && before == t.folders[id] && TrashedFrom(before, after)
    case NoteWrite(id, before, after) =>
      id in t.notes && before == t.notes[id] && Holds(before.folder, ids) && !before.trashed
      && NoteDetachedFrom(before, after)
    case QuickWrite(id, before, after) =>
      id in t.quick && before == t.quick[id] && Holds(before.folder, ids) && QuickDetachedFrom(before, after)
  }

  predicate Ordered(projections: seq<Projection>) {
    forall i :: 0 <= i < |projections| ==> projections[i].ordinal == i
  }

  predicate WritesOnce(plans: seq<DbPlan>) {
    forall i, j :: 0 <= i < j < |plans| ==> TargetOf(plans[i]) != TargetOf(plans[j])
  }

  predicate AllCorrect(t: Tables, ids: seq<Id>, plans: seq<DbPlan>) {
    forall i :: 0 <= i < |plans| ==> Correct(t, ids, plans[i])
  }

  predicate Targets(plans: seq<DbPlan>, target: Target) {
    exists i :: 0 <= i < |plans| && TargetOf(plans[i]) == target
  }

  lemma Appended(t: Tables, ids: seq<Id>, plans: seq<DbPlan>, plan: DbPlan)
    requires AllCorrect(t, ids, plans) && WritesOnce(plans) && Correct(t, ids, plan) && !Targets(plans, TargetOf(plan))
    ensures AllCorrect(t, ids, plans + [plan]) && WritesOnce(plans + [plan])
    ensures forall target :: Targets(plans + [plan], target) <==> Targets(plans, target) || target == TargetOf(plan)
  {
    var all := plans + [plan];
    assert all[|plans|] == plan;
    forall target ensures Targets(all, target) <==> Targets(plans, target) || target == TargetOf(plan) {
      if Targets(plans, target) {
        var i :| 0 <= i < |plans| && TargetOf(plans[i]) == target;
        assert all[i] == plans[i];
      }
    }
  }

  method CompileFolders(t: Tables, ids: seq<Id>) returns (command: Command)
    requires Distinct(ids) && forall i :: 0 <= i < |ids| ==> ids[i] in t.folders
    ensures AllCorrect(t, ids, command.plans) && WritesOnce(command.plans) && Ordered(command.projections)
    ensures forall target :: Targets(command.plans, target) <==> target.OfFolder? && target.id in ids
    ensures |command.plans| == |command.projections| == |ids|
    ensures forall i :: 0 <= i < |ids| ==>
              TargetOf(command.plans[i]) == OfFolder(ids[i])
              && command.projections[i] == Projection(OfFolder(ids[i]), i)
  {
    var plans: seq<DbPlan> := [];
    var projections: seq<Projection> := [];
    for ordinal := 0 to |ids|
      invariant AllCorrect(t, ids, plans) && WritesOnce(plans) && Ordered(projections)
      invariant |plans| == |projections| == ordinal
      invariant forall target :: Targets(plans, target) <==> target.OfFolder? && target.id in ids[..ordinal]
      invariant forall i :: 0 <= i < ordinal ==>
                  TargetOf(plans[i]) == OfFolder(ids[i]) && projections[i] == Projection(OfFolder(ids[i]), i)
    {
      var id := ids[ordinal];
      var row := t.folders[id];
      var plan := FolderWrite(id, row, TrashFolder(row));
      assert Correct(t, ids, plan);
      Appended(t, ids, plans, plan);
      assert ids[..ordinal + 1] == ids[..ordinal] + [id];
      plans := plans + [plan];
      projections := projections + [Projection(OfFolder(id), ordinal)];
    }
    assert ids[..|ids|] == ids;
    command := Command(plans, projections);
  }

  /** An untrashed note of the doomed folders. */
  predicate Detaches(t: Tables, ids: seq<Id>, n: Id) {
    n in t.notes && Holds(t.notes[n].folder, ids) && !t.notes[n].trashed
  }

  /** How many projections the notes of a listing need together. */
  function PartsOf(t: Tables, ids: seq<Id>, order: seq<Id>, parts: Id -> nat): nat {
    if order == [] then 0 else
    var last := order[|order| - 1];
    PartsOf(t, ids, order[..|order| - 1], parts) + if Detaches(t, ids, last) then parts(last) else 0
  }

  /** Detach every untrashed note of the doomed folders; one without Markdown
      stops the whole command. */
  method CompileNotes(t: Tables, ids: seq<Id>, order: seq<Id>, parts: Id -> nat, first: Command)
    returns (command: Result<Command, Refusal>)
    requires Lists(order, t.notes.Keys) && AllCorrect(t, ids, first.plans) && WritesOnce(first.plans)
             && Ordered(first.projections)
    requires forall target :: Targets(first.plans, target) ==> target.OfFolder?
    ensures command.Ok? <==> forall n :: n in t.notes ==> !Blocks(t.notes[n], ids)
    ensures command.Err? ==> command.error == RecoveryRequired
    ensures command.Ok? ==>
              AllCorrect(t, ids, command.value.plans) && WritesOnce(command.value.plans)
              && Ordered(command.value.projections)
    ensures command.Ok? ==> forall target :: Targets(command.value.plans, target) <==>
              Targets(first.plans, target)
              || (target.OfNote? && target.id in t.notes && Holds(t.notes[target.id].folder, ids)
                  && !t.notes[target.id].trashed)
    ensures command.Ok? ==>
              && first.projections <= command.value.projections
              && |command.value.projections| == |first.projections| + PartsOf(t, ids, order, parts)
              && forall i :: |first.projections| <= i < |command.value.projections| ==>
                   command.value.projections[i].target.OfNote?
                   && Detaches(t, ids, command.value.projections[i].target.id)
  {
    hide Correct, AllCorrect, WritesOnce, Targets, DetachNote;
    var plans, projections := first.plans, first.projections;
    for i := 0 to |order|
      invariant AllCorrect(t, ids, plans) && WritesOnce(plans) && Ordered(projections)
      invariant forall j :: 0 <= j < i ==> !Blocks(t.notes[order[j]], ids)
      invariant forall target :: Targets(plans, target) <==>
                  Targets(first.plans, target)
                  || (target.OfNote? && target.id in order[..i] && Holds(t.notes[target.id].folder, ids)
                      && !t.notes[target.id].trashed)
      invariant first.projections <= projections
      invariant |projections| == |first.projections| + PartsOf(t, ids, order[..i], parts)
      invariant forall j :: |first.projections| <= j < |projections| ==>
                  projections[j].target.OfNote? && Detaches(t, ids, projections[j].target.id)
    {
      var id := order[i];
      var row := t.notes[id];
      assert order[..i + 1] == order[..i] + [id];
      assert order[..i + 1][..i] == order[..i];
      if Holds(row.folder, ids) && !row.trashed {
        if !row.markdown {
          return Err(RecoveryRequired);
        }
        var plan := NoteWrite(id, row, DetachNote(row));
        NoteCorrect(t, ids, id);
        Appended(t, ids, plans, plan);
        plans := plans + [plan];
        projections := projections + NoteProjections(id, parts(id), |projections|);
      }
    }
    assert order[..|order|] == order;
    command := Ok(Command(plans, projections));
  }

  lemma NoteCorrect(t: Tables, ids: seq<Id>, n: Id)
    requires Detaches(t, ids, n)
    ensures Correct(t, ids, NoteWrite(n, t.notes[n], DetachNote(t.notes[n])))
  {
  }

  method CompileQuickNotes(t: Tables, ids: seq<Id>, order: seq<Id>, first: seq<DbPlan>) returns (plans: seq<DbPlan>)
    requires Lists(order, t.quick.Keys) && AllCorrect(t, ids, first) && WritesOnce(first)
    requires forall target :: Targets(first, target) ==> !target.OfQuick?
    ensures AllCorrect(t, ids, plans) && WritesOnce(plans)
    ensures forall target :: Targets(plans, target) <==>
              Targets(first, target)
              || (target.OfQuick? && target.id in t.quick && Holds(t.quick[target.id].folder, ids))
  {
    plans := first;
    for i := 0 to |order|
      invariant AllCorrect(t, ids, plans) && WritesOnce(plans)
      invariant forall target :: Targets(plans, target) <==>
                  Targets(first, target)
                  || (target.OfQuick? && target.id in order[..i] && Holds(t.quick[target.id].folder, ids))
    {
      var id := order[i];
      var row := t.quick[id];
      assert order[..i + 1] == order[..i] + [id];
      if Holds(row.folder, ids) {
        var plan := QuickWrite(id, row, DetachQuick(row));
        Appended(t, ids, plans, plan);
        plans := plans + [plan];
      }
    }
    assert order[..|order|] == order;
  }

  /** The overlay's listing orders of the three tables. */
  datatype Orders = Orders(folders: seq<Id>, notes: seq<Id>, quick: seq<Id>)

  ghost predicate OrdersOf(t: Tables, orders: Orders) {
    Lists(orders.folders, t.folders.Keys) && Lists(orders.notes, t.notes.Keys) && Lists(orders.quick, t.quick.Keys)
  }

  /** Some untrashed note of a doomed folder has no Markdown to rewrite. */
  ghost predicate NoteBlocks(t: Tables, root: Id) {
    exists n :: n in t.notes && t.notes[n].folder.Some? && Doomed(t.folders, root, t.notes[n].folder.value)
                && !t.notes[n].trashed && !t.notes[n].markdown
  }

  /** The search must end (`SearchEndsIff`); any acyclic table allows that.
      `current` says that the version check passes, `parts` how many
      projections the note builder makes for a note. */
  method CompileCascade(t: Tables, orders: Orders, root: Id, payloadEmpty: bool, current: bool, parts: Id -> nat)
    returns (command: Result<Command, Refusal>)
    requires OrdersOf(t, orders) && (payloadEmpty && root in t.folders && current ==> Grounded(t.folders, root))
    ensures command.Ok? <==> payloadEmpty && root in t.folders && current && !NoteBlocks(t, root)
    ensures command.Ok? ==> ApplyAll(t, command.value.plans) == Cascaded(t, root)
    ensures command.Ok? ==> RowsAfter(t, root, ApplyAll(t, command.value.plans))
    ensures command.Err? ==>
              command.error == if !payloadEmpty then PayloadNotEmpty else if root !in t.folders then NotFound
              else if !current then VersionConflict else RecoveryRequired
    ensures command.Ok? ==> WritesOnce(command.value.plans) && Ordered(command.value.projections)
    ensures command.Ok? ==> forall target :: Targets(command.value.plans, target) <==> Touched(t, root, target)
  {
    if !payloadEmpty { return Err(PayloadNotEmpty); }
    if root !in t.folders { return Err(NotFound); }
    if !current { return Err(VersionConflict); }
    var below := Descendants(t.folders, orders.folders, root);
    FindsAll(t.folders, orders.folders, root);
    assert Within(t.folders, root, root);
    var ids := [root] + below;
    Joined([root], below);
    forall f | f in below ensures f in t.folders { assert ActiveBelow(t.folders, f, root); }
    assert forall f :: f in ids <==> Doomed(t.folders, root, f);
    var folders := CompileFolders(t, ids);
    command := CompileNotes(t, ids, orders.notes, parts, folders);
    NotesBlock(t, root, ids);
    if command.Err? { return; }
    var plans := CompileQuickNotes(t, ids, orders.quick, command.value.plans);
    command := Ok(command.value.(plans := plans));
    TouchedIs(t, root, ids, plans);
    CascadeApplies(t, root, ids, plans);
    CascadedRows(t, root);
  }

  lemma NotesBlock(t: Tables, root: Id, ids: seq<Id>)
    requires forall f :: f in ids <==> Doomed(t.folders, root, f)
    ensures NoteBlocks(t, root) <==> exists n :: n in t.notes && Blocks(t.notes[n], ids)
  {
    hide Doomed;
    if n :| n in t.notes && Blocks(t.notes[n], ids) {
      assert Doomed(t.folders, root, t.notes[n].folder.value);
    }
  }

  // -------------------------------------------------------------- the outcome

  /** The rows a cascade writes. */
  ghost predicate Touched(t: Tables, root: Id, target: Target) {
    match target
    case OfFolder(f) => Doomed(t.folders, root, f)
    case OfNote(n) => n in t.notes && t.notes[n].folder.Some? && Doomed(t.folders, root, t.notes[n].folder.value)
                      && !t.notes[n].trashed
    case OfQuick(q) => q in t.quick && t.quick[q].folder.Some? && Doomed(t.folders, root, t.quick[q].folder.value)
  }

  /** The tables after a cascade. */
  ghost function Cascaded(t: Tables, root: Id): Tables {
    Tables(
      map f | f in t.folders :: if Touched(t, root, OfFolder(f)) then TrashFolder(t.folders[f]) else t.folders[f],
      map n | n in t.notes :: if Touched(t, root, OfNote(n)) then DetachNote(t.notes[n]) else t.notes[n],
      map q | q in t.quick :: if Touched(t, root, OfQuick(q)) then DetachQuick(t.quick[q]) else t.quick[q])
  }

  /** The tables after a cascade, row by row and column by column. */
  ghost predicate RowsAfter(t: Tables, root: Id, after: Tables) {
    && after.folders.Keys == t.folders.Keys && after.notes.Keys == t.notes.Keys && after.quick.Keys == t.quick.Keys
    && (forall f :: f in t.folders ==>
          if Doomed(t.folders, root, f) then TrashedFrom(t.folders[f], after.folders[f])
          else after.folders[f] == t.folders[f])
    && (forall n :: n in t.notes ==>
          if t.notes[n].folder != None && Doomed(t.folders, root, t.notes[n].folder.value) && !t.notes[n].trashed
          then NoteDetachedFrom(t.notes[n], after.notes[n]) else after.notes[n] == t.notes[n])
    && (forall q :: q in t.quick ==>
          if t.quick[q].folder != None && Doomed(t.folders, root, t.quick[q].folder.value)
          then QuickDetachedFrom(t.quick[q], after.quick[q]) else after.quick[q] == t.quick[q])
  }

  /** Every written row is one version later, with its other columns as they
      were but the one that the cascade sets; every other row is unchanged. */
  lemma CascadedRows(t: Tables, root: Id)
    ensures RowsAfter(t, root, Cascaded(t, root))
  {
    hide Doomed;
  }

  function ApplyPlan(t: Tables, plan: DbPlan): Tables {
    match plan
    case FolderWrite(id, _, after) => t.(folders := t.folders[id := after])
    case NoteWrite(id, _, after) => t.(notes := t.notes[id := after])
    case QuickWrite(id, _, after) => t.(quick := t.quick[id := after])
  }

  function ApplyAll(t: Tables, plans: seq<DbPlan>): Tables {
    if plans == [] then t else ApplyPlan(ApplyAll(t, plans[..|plans| - 1]), plans[|plans| - 1])
  }

  lemma TouchedIs(t: Tables, root: Id, ids: seq<Id>, plans: seq<DbPlan>)
    requires forall f :: f in ids <==> Doomed(t.folders, root, f)
    requires forall target :: Targets(plans, target) <==>
               match target
               case OfFolder(f) => f in ids
               case OfNote(n) => n in t.notes && Holds(t.notes[n].folder, ids) && !t.notes[n].trashed
               case OfQuick(q) => q in t.quick && Holds(t.quick[q].folder, ids)
    ensures forall target :: Targets(plans, target) <==> Touched(t, root, target)
  {
    hide Doomed, Targets;
  }

  /** Row by row: a written row has its after image, any other is unchanged. */
  ghost predicate RowsAre(t: Tables, plans: seq<DbPlan>, after: Tables) {
    && after.folders.Keys == t.folders.Keys && after.notes.Keys == t.notes.Keys && after.quick.Keys == t.quick.Keys
    && (forall f ::
          f in t.folders ==> after.folders[f] == if Targets(plans, OfFolder(f)) then TrashFolder(t.folders[f])
          else t.folders[f])
    && (forall n ::
          n in t.notes ==> after.notes[n] == if Targets(plans, OfNote(n)) then DetachNote(t.notes[n]) else t.notes[n])
    && (forall q ::
          q in t.quick ==> after.quick[q] == if Targets(plans, OfQuick(q)) then DetachQuick(t.quick[q]) else t.quick[q])
  }

  lemma OneWrite(t: Tables, ids: seq<Id>, earlier: seq<DbPlan>, last: DbPlan, mid: Tables)
    requires RowsAre(t, earlier, mid) && Correct(t, ids, last)
    ensures RowsAre(t, earlier + [last], ApplyPlan(mid, last))
  {
    LastTarget(earlier, last);
    hide Targets, Holds;
    match last
    case FolderWrite(_, before, after) => assert after == TrashFolder(before);
    case NoteWrite(_, before, after) => assert after == DetachNote(before);
    case QuickWrite(_, before, after) => assert after == DetachQuick(before);
  }

  lemma {:induction false} Outcome(t: Tables, ids: seq<Id>, plans: seq<DbPlan>)
    requires AllCorrect(t, ids, plans)
    ensures RowsAre(t, plans, ApplyAll(t, plans))
    decreases |plans|
  {
    hide Correct, RowsAre, ApplyPlan;
    if plans == [] {
      assert RowsAre(t, plans, t) by { Nothing(t); }
    } else {
      var earlier, last := plans[..|plans| - 1], plans[|plans| - 1];
      Outcome(t, ids, earlier);
      assert plans == earlier + [last];
      OneWrite(t, ids, earlier, last, ApplyAll(t, earlier));
    }
  }

  lemma Nothing(t: Tables)
    ensures RowsAre(t, [], t)
  {
  }

  lemma LastTarget(earlier: seq<DbPlan>, last: DbPlan)
    ensures forall target :: Targets(earlier + [last], target) <==> Targets(earlier, target) || target == TargetOf(last)
  {
    var all := earlier + [last];
    assert all[|earlier|] == last;
    forall target ensures Targets(all, target) <==> Targets(earlier, target) || target == TargetOf(last) {
      if Targets(earlier, target) {
        var i :| 0 <= i < |earlier| && TargetOf(earlier[i]) == target;
        assert all[i] == earlier[i];
      }
    }
  }

  lemma CascadeApplies(t: Tables, root: Id, ids: seq<Id>, plans: seq<DbPlan>)
    requires AllCorrect(t, ids, plans) && WritesOnce(plans)
    requires forall target :: Targets(plans, target) <==> Touched(t, root, target)
    ensures ApplyAll(t, plans) == Cascaded(t, root)
  {
    hide Targets, Touched, WritesOnce, TrashFolder, DetachNote, DetachQuick;
    Outcome(t, ids, plans);
    var one, other := ApplyAll(t, plans), Cascaded(t, root);
    assert one.folders == other.folders && one.notes == other.notes && one.quick == other.quick;
  }

  // ----------------------------------------------------------------- theorems

  /** After a cascade no active folder has a trashed parent, no untrashed note
      and no quick note is left in a trashed subtree, the root is trashed, and
      the relation is as it was. */
  lemma CascadeIsExact(t: Tables, root: Id)
    requires Forest(t.folders) && Upright(t.folders) && root in t.folders
    ensures var after := Cascaded(t, root);
            && Upright(after.folders) && Forest(after.folders) && after.folders[root].trashed
            && (forall f :: f in t.folders && Doomed(t.folders, root, f) ==> after.folders[f].trashed)
            && (forall n :: n in after.notes && !after.notes[n].trashed && after.notes[n].folder.Some? ==>
                  !Doomed(t.folders, root, after.notes[n].folder.value))
            && (forall q ::
                  q in after.quick && after.quick[q].folder.Some? ==>
                    !Doomed(t.folders, root, after.quick[q].folder.value))
  {
    var after := Cascaded(t, root);
    forall f | f in after.folders && !after.folders[f].trashed && after.folders[f].parent.Some?
               && after.folders[f].parent.value in after.folders
      ensures !after.folders[after.folders[f].parent.value].trashed
    {
      var p := after.folders[f].parent.value;
      if Doomed(t.folders, root, p) { ChildOfDoomed(t.folders, root, f, p); }
    }
    SameParents(t.folders, after.folders);
  }

  lemma ChildOfDoomed(rows: Rows, root: Id, f: Id, p: Id)
    requires f in rows && rows[f].parent == Some(p) && !rows[f].trashed && Doomed(rows, root, p)
    ensures Doomed(rows, root, f)
  {
    if p == root {
      assert ActivePath(rows, f, root, 1);
    } else {
      var n: nat :| ActivePath(rows, p, root, n);
      assert ActivePath(rows, f, root, n + 1);
    }
  }
}
