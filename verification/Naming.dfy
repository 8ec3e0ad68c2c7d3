/** Pot names: how a Nomad task ID becomes the name of a jail. */
module Naming {
  import opened Text

  /** The source indexes the first three parts of the ID without checking that they exist. */
  predicate HasParts(id: string) {
    |Split(id, '/')| >= 3
  }

  type TaskId = id: string | HasParts(id) witness "//"

  /** `parts[1] + "_" + parts[2] + "_" + parts[0]`, as every prepare function and check spells it. */
  function PotName(id: string): string
    requires HasParts(id)
  {
    var parts := Split(id, '/');
    parts[1] + "_" + parts[2] + "_" + parts[0]
  }

  function BaseName(id: string): string
    requires HasParts(id)
  {
    Split(id, '/')[1]
  }

  /** The `-a` suffix of the create command. */
  function AllocSuffix(id: string): string
    requires HasParts(id)
  {
    var parts := Split(id, '/');
    parts[2] + "_" + parts[0]
  }

  /** The name spelled by `prepareContainer` from base name and suffix is the name of every other site,
      and its guard on an empty suffix never fires. */
  lemma NamingSitesAgree(id: string)
    requires HasParts(id)
    ensures BaseName(id) + "_" + AllocSuffix(id) == PotName(id)
    ensures AllocSuffix(id) != ""
  {
    var parts := Split(id, '/');
    assert parts[1] + "_" + (parts[2] + "_" + parts[0]) == parts[1] + "_" + parts[2] + "_" + parts[0];
  }

  /** Reads a pot name backwards: the last two underscores delimit hash and allocation. */
  function TaskIdOf(pot: string): string {
    if Free(pot, '_') then pot
    else
      var (front, alloc) := CutLast(pot, '_');
      if Free(front, '_') then pot
      else
        var (task, hash) := CutLast(front, '_');
        Join([alloc, task, hash], '/')
  }

  /** Splitting at '/' leaves no '/' in the pot name. */
  lemma PotNameFree(id: string)
    requires HasParts(id)
    ensures Free(PotName(id), '/')
  {
    var parts := Split(id, '/');
    FreeConcat(parts[1], "_", '/');
    FreeConcat(parts[1] + "_", parts[2], '/');
    FreeConcat(parts[1] + "_" + parts[2], "_", '/');
    FreeConcat(parts[1] + "_" + parts[2] + "_", parts[0], '/');
  }

  /** A three-part ID is recovered from its pot name exactly when its first and third parts hold no underscore;
      the task name in the middle may hold any number of them. */
  lemma TaskIdRecovered(id: string)
    requires |Split(id, '/')| == 3
    ensures TaskIdOf(PotName(id)) == id <==> Free(Split(id, '/')[0], '_') && Free(Split(id, '/')[2], '_')
  {
    var parts := Split(id, '/');
    var pot := PotName(id);
    JoinSplit(id, '/');
    assert parts == [parts[0], parts[1], parts[2]];
    if Free(parts[0], '_') && Free(parts[2], '_') {
      CutLastUnique(parts[1] + "_" + parts[2], parts[0], '_');
      CutLastUnique(parts[1], parts[2], '_');
      assert !Free(parts[1] + "_" + parts[2], '_') by { assert '_' in parts[1] + "_" + parts[2]; }
      assert !Free(pot, '_') by { assert '_' in pot; }
    }
    if TaskIdOf(pot) == id {
      UnderscoresOfRecovered(id);
    }
  }

  lemma UnderscoresOfRecovered(id: string)
    requires |Split(id, '/')| == 3 && TaskIdOf(PotName(id)) == id
    ensures Free(Split(id, '/')[0], '_') && Free(Split(id, '/')[2], '_')
  {
    var parts := Split(id, '/');
    var pot := PotName(id);
    PotNameFree(id);
    assert pot != id by {
      if Free(id, '/') { SplitFree(id, '/'); }
    }
    var (front, alloc) := CutLast(pot, '_');
    var (task, hash) := CutLast(front, '_');
    FreeConcat(front + ['_'], alloc, '/');
    FreeConcat(front, ['_'], '/');
    FreeConcat(task + ['_'], hash, '/');
    FreeConcat(task, ['_'], '/');
    SplitJoinFree([alloc, task, hash], '/');
  }

  /** Allocation, task name, hash; only the task name may hold an underscore. */
  predicate NomadId(id: string) {
    |Split(id, '/')| == 3 && Free(Split(id, '/')[0], '_') && Free(Split(id, '/')[2], '_')
  }

  /** No two such IDs share a pot name. */
  lemma PotNameInjective(a: string, b: string)
    requires NomadId(a) && NomadId(b)
    ensures PotName(a) == PotName(b) <==> a == b
  {
    TaskIdRecovered(a);
    TaskIdRecovered(b);
  }

  /** Cutting a name with two underscores at the last two gives the ID of a task that has that name. */
  lemma NamesTask(pot: string) returns (id: string)
    requires Free(pot, '/') && !Free(pot, '_') && !Free(CutLast(pot, '_').0, '_')
    ensures NomadId(id) && PotName(id) == pot
  {
    var (front, alloc) := CutLast(pot, '_');
    var (task, hash) := CutLast(front, '_');
    FreeConcat(front + ['_'], alloc, '/');
    FreeConcat(front, ['_'], '/');
    FreeConcat(task + ['_'], hash, '/');
    FreeConcat(task, ['_'], '/');
    SplitJoinFree([alloc, task, hash], '/');
    id := Join([alloc, task, hash], '/');
  }

  lemma PotNameCuts(id: string)
    requires |Split(id, '/')| == 3
    ensures !Free(PotName(id), '_') && !Free(CutLast(PotName(id), '_').0, '_')
  {
    var parts := Split(id, '/');
    var front := parts[1] + "_" + parts[2];
    assert front[|parts[1]|] == '_' && PotName(id)[|front|] == '_';
    var cut := CutLast(PotName(id), '_').0;
    assert |front| <= |cut|;
    assert cut[|parts[1]|] == PotName(id)[|parts[1]|] == '_';
  }

  /** A three-part ID shares its pot name with another, well-formed task exactly when its first or third part holds an
      underscore. */
  lemma PotNameShared(id: string)
    requires |Split(id, '/')| == 3
    ensures (exists other: string :: NomadId(other) && other != id && PotName(other) == PotName(id)) <==> !NomadId(id)
  {
    if NomadId(id) {
      forall other: string | NomadId(other) && PotName(other) == PotName(id)
        ensures other == id
      {
        PotNameInjective(id, other);
      }
    } else {
      PotNameFree(id);
      PotNameCuts(id);
      var other := NamesTask(PotName(id));
    }
  }

  /** For example with an underscore in the third part. */
  lemma PotNameCollides()
    ensures exists a: string, b: string :: a != b && HasParts(a) && HasParts(b) && PotName(a) == PotName(b)
  {
    var p, q := ["x", "a", "b_c"], ["x", "a_b", "c"];
    SplitJoin(p, '/');
    SplitJoin(q, '/');
    assert PotName(Join(p, '/')) == "a_b_c_x" == PotName(Join(q, '/'));
  }
}
