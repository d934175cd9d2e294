/** Worked saves: concrete inputs and the exact action sequence the engine hands out. */
module Scenarios {
  import opened Actions
  import opened AssocList
  import opened DepthOrder
  import opened SaveBatching
  import opened Accumulation
  import opened Theorems

  const A: DbAction := InsertRoot(1, Generated)
  const B: DbAction := InsertRoot(2, Generated)
  const C: DbAction := UpdateRoot(3)
  const D: DbAction := InsertRoot(4, Generated)

  /** A and B share an IdValueSource, so both wait as candidates. */
  lemma RootInterleavingFirstTwo()
    ensures AddAll(Fresh, [[A], [B]]) == State([], [A, B], [], [])
  {
    var s1 := AddAction(Fresh, A);
    assert s1 == State([], [A], [], []);
    assert AddAction(s1, B) == State([], [A, B], [], []);
    AddOne(Fresh, A);
    AddOne(s1, B);
    AddAllStep(Fresh, [A], [[B]]);
    AddAllOne(s1, [B]);
  }

  /** The UpdateRoot C flushes A and B as one batch and is appended after it. */
  lemma UpdateRootFlushes()
    ensures AddAction(State([], [A, B], [], []), C) == State([BatchInsertRoot([A, B]), C], [], [], [])
  {
    var s2 := State([], [A, B], [], []);
    assert CombineBatchCandidates(s2) == State([BatchInsertRoot([A, B])], [], [], []);
  }

  lemma RootInterleavingFirstThree()
    ensures AddAll(Fresh, [[A], [B], [C]]) == State([BatchInsertRoot([A, B]), C], [], [], [])
  {
    var s2 := State([], [A, B], [], []);
    RootInterleavingFirstTwo();
    UpdateRootFlushes();
    AddOne(s2, C);
    AddAllSnoc(Fresh, [[A], [B]], [C]);
    assert [[A], [B]] + [[C]] == [[A], [B], [C]];
  }

  /** D then waits alone. */
  lemma RootInterleavingAccumulate()
    ensures AddAll(Fresh, [[A], [B], [C], [D]]) == State([BatchInsertRoot([A, B]), C], [D], [], [])
  {
    var s3 := State([BatchInsertRoot([A, B]), C], [], [], []);
    RootInterleavingFirstThree();
    AddAllSnoc(Fresh, [[A], [B], [C]], [D]);
    assert [[A], [B], [C]] + [[D]] == [[A], [B], [C], [D]];
    AddOne(s3, D);
  }

  /** An UpdateRoot flushes the pending InsertRoots; the last InsertRoot stays alone. */
  lemma RootInterleaving()
    ensures SaveActions([[A], [B], [C], [D]]) == [BatchInsertRoot([A, B]), C, D]
  {
    RootInterleavingAccumulate();
    var s := State([BatchInsertRoot([A, B]), C], [D], [], []);
    assert RootSection(s) == [BatchInsertRoot([A, B]), C, D];
    assert DeleteSection(s) == [] && InsertSection(s) == [];
  }

  /** InsertRoots with different IdValueSources are not batched together. */
  lemma MixedIdSources()
    ensures SaveActions([[InsertRoot(1, Generated)], [InsertRoot(2, Provided)]])
         == [InsertRoot(1, Generated), InsertRoot(2, Provided)]
  {
  }

  const D1: DeleteAction := Delete(1, ["a"])
  const D2: DeleteAction := Delete(1, ["a", "b"])
  const D3: DeleteAction := Delete(2, ["a", "b"])

  /** The delete map after `[[D1, D2], [D3]]`: keys in first-seen order. */
  const DeleteMap: seq<Entry<Path, seq<DeleteAction>>> := [Entry(["a"], [D1]), Entry(["a", "b"], [D2, D3])]

  lemma FirstDeleteChange()
    ensures Add(Fresh, [D1, D2]) == State([], [], [], [Entry(["a"], [D1]), Entry(["a", "b"], [D2])])
  {
    var s1 := AddAction(Fresh, D1);
    assert s1 == State([], [], [], [Entry(["a"], [D1])]);
    AddStep(Fresh, D1, [D2]);
    AddOne(s1, D2);
  }

  /** D3 joins the list of D2, the path seen second. */
  lemma SecondDeleteChange()
    ensures Add(State([], [], [], [Entry(["a"], [D1]), Entry(["a", "b"], [D2])]), [D3]) == State([], [], [], DeleteMap)
  {
    var m2 := [Entry(["a"], [D1]), Entry(["a", "b"], [D2])];
    assert m2[1..] == [Entry(["a", "b"], [D2])] && m2[1..][1..] == [];
    assert [D2] + [D3] == [D2, D3];
    assert AppendAt<Path, DeleteAction>(m2[1..], ["a", "b"], D3) == [Entry(["a", "b"], [D2, D3])];
    assert |m2[0].key| != |D3.path|;
    assert AppendAt<Path, DeleteAction>(m2, ["a", "b"], D3) == [m2[0]] + [Entry(["a", "b"], [D2, D3])];
    AddOne(State([], [], [], m2), D3);
  }

  lemma DeletesAccumulate()
    ensures AddAll(Fresh, [[D1, D2], [D3]]) == State([], [], [], DeleteMap)
  {
    var s2 := State([], [], [], [Entry(["a"], [D1]), Entry(["a", "b"], [D2])]);
    FirstDeleteChange();
    SecondDeleteChange();
    AddAllStep(Fresh, [D1, D2], [[D3]]);
    AddAllOne(s2, [D3]);
  }

  /** The deeper path comes first, as a batch; the lone shallow Delete goes out unwrapped. */
  lemma DeletesDrain()
    ensures ForEachAction(State([], [], [], DeleteMap)) == [BatchDelete([D2, D3]), D1]
  {
    var m := DeleteMap;
    assert m[1..] == [m[1]] && [m[1]][1..] == [];
    assert SortByDepth([m[1]], true) == [m[1]];
    assert InsertByDepth(m[0], [], true) == [m[0]];
    var sd := SortByDepth(m, true);
    assert sd == [m[1], m[0]];
    assert sd[1..] == [m[0]] && sd[1..][1..] == [];
    assert EmitDeletes(sd[1..]) == [D1];
  }

  /** Deletes deepest path first; two or more on one path become one BatchDelete, a lone one stays unwrapped. */
  lemma DeleteScenario()
    ensures SaveActions([[D1, D2], [D3]]) == [BatchDelete([D2, D3]), D1]
  {
    DeletesAccumulate();
    DeletesDrain();
  }

  const I1: InsertAction := Insert(5, ["a", "b"], Provided)
  const I2: InsertAction := Insert(6, ["a"], Generated)

  /** The insert map after `[[I1, OtherAction("lock")], [I2]]`: keys in first-seen order. */
  const InsertMap: seq<Entry<Path, InsertsBySource>> :=
    [Entry(["a", "b"], [Entry(Provided, [I1])]), Entry(["a"], [Entry(Generated, [I2])])]

  /** The action of an ignored kind changes nothing. */
  lemma FirstInsertChange()
    ensures Add(Fresh, [I1, OtherAction("lock")]) == State([], [], [InsertMap[0]], [])
  {
    var o := OtherAction("lock");
    var s1 := AddAction(Fresh, I1);
    assert s1 == State([], [], [InsertMap[0]], []);
    assert AddAction(s1, o) == s1;
    AddStep(Fresh, I1, [o]);
    AddOne(s1, o);
  }

  /** An Insert on a new path opens a new entry at the end. */
  lemma SecondInsertChange()
    ensures Add(State([], [], [InsertMap[0]], []), [I2]) == State([], [], InsertMap, [])
  {
    var s1 := State([], [], [InsertMap[0]], []);
    assert AddInsert(s1.insertActions, I2) == InsertMap;
    AddOne(s1, I2);
  }

  lemma InsertsAccumulate()
    ensures AddAll(Fresh, [[I1, OtherAction("lock")], [I2]]) == State([], [], InsertMap, [])
  {
    var s1 := State([], [], [InsertMap[0]], []);
    FirstInsertChange();
    SecondInsertChange();
    AddAllStep(Fresh, [I1, OtherAction("lock")], [[I2]]);
    AddAllOne(s1, [I2]);
  }

  /** The shallower path comes first; each single Insert is still wrapped in a BatchInsert. */
  lemma InsertsDrain()
    ensures ForEachAction(State([], [], InsertMap, [])) == [BatchInsert([I2]), BatchInsert([I1])]
  {
    var m := InsertMap;
    assert m[1..] == [m[1]] && [m[1]][1..] == [];
    assert SortByDepth([m[1]], false) == [m[1]];
    assert InsertByDepth(m[0], [], false) == [m[0]];
    var si := SortByDepth(m, false);
    assert si == [m[1], m[0]];
    assert si[1..] == [m[0]] && si[1..][1..] == [];
    assert m[0].value[1..] == [] && m[1].value[1..] == [];
    assert EmitInsertsBySource(m[0].value) == [BatchInsert([I1])];
    assert EmitInsertsBySource(m[1].value) == [BatchInsert([I2])];
    assert EmitInserts(si[1..]) == [BatchInsert([I1])];
  }

  /** Inserts shallowest path first, one BatchInsert per path and IdValueSource; ignored kinds are dropped. */
  lemma InsertScenario()
    ensures SaveActions([[I1, OtherAction("lock")], [I2]]) == [BatchInsert([I2]), BatchInsert([I1])]
  {
    InsertsAccumulate();
    InsertsDrain();
  }
}
