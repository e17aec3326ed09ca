/** Evaluation steps for the client scenarios: each lemma states the value
    of one model function on concrete arguments, proved from the steps
    before it.  They let the scenarios in `ClientScenarios` be checked one
    message at a time. */
module ClientScenarioEval {
  import opened Common
  import opened OperationSeq
  import opened OtCompose
  import opened OtTransform
  import opened Units
  import opened Protocol
  import opened Conversion
  import opened Client

  /** The sequence the builder calls `calls` make, in order, from the empty
      sequence: the scenarios build their deltas this way. */
  function Build(calls: Ops): Ops
    decreases |calls|
  {
    if calls == [] then [] else Add(Build(calls[..|calls| - 1]), calls[|calls| - 1])
  }

  /** One retain step of the conversion to modifications. */
  lemma ToModsRetainUnfold(f: Format, ops: Ops, y: string, out: string, dels: string, ins: string)
    requires BaseLen(ops) == |y| && ops != [] && ops[0].Retain?
    ensures ops[0].n <= |y| && BaseLen(ops[1..]) == |y| - ops[0].n
    ensures ToModsLoop(f, ops, y, out, dels, ins)
         == Flush(f, out, dels, ins) + ToModsLoop(f, ops[1..], y[ops[0].n..], out + ins + y[..ops[0].n], [], [])
  {
  }

  lemma Eval1()
    ensures ModRange(Chars, "çalùt monde", TextModification(0, 1, "Ç")) == Some((0, 1))
  {
  }

  lemma Eval2()
    ensures Replacement(0, 1, "Ç", 11) == [Insert("Ç"), Delete(1), Retain(10)]
  {
    assert AddRetain([], 0) == [];
    assert AddDelete([], 1) == [Delete(1)];
    assert [Delete(1)][..0] == [];
    assert AddInsert([Delete(1)], "Ç") == [Insert("Ç"), Delete(1)];
    assert AddRetain([Insert("Ç"), Delete(1)], 10) == [Insert("Ç"), Delete(1), Retain(10)];
  }

  lemma Eval3()
    ensures ModOp(Chars, "çalùt monde", TextModification(0, 1, "Ç")) == Some([Insert("Ç"), Delete(1), Retain(10)])
  {
    Eval1();
    Eval2();
  }

  lemma Eval4()
    ensures BaseLen([]) == 0
  {
  }

  lemma Eval5()
    ensures BaseLen([Retain(10)]) == 10
  {
    assert [Retain(10)][1..] == [];
    Eval4();
  }

  lemma Eval6()
    ensures BaseLen([Delete(1), Retain(10)]) == 11
  {
    assert [Delete(1), Retain(10)][1..] == [Retain(10)];
    Eval5();
  }

  lemma Eval7()
    ensures BaseLen([Insert("Ç"), Delete(1), Retain(10)]) == 11
  {
    assert [Insert("Ç"), Delete(1), Retain(10)][1..] == [Delete(1), Retain(10)];
    Eval6();
  }

  lemma Eval8()
    ensures Apply([], "") == Some("")
  {
  }

  lemma Eval9()
    ensures Apply([Retain(10)], "alùt monde") == Some("alùt monde")
  {
    Eval5();
    Eval8();
    assert [Retain(10)][1..] == [];
    assert "alùt monde"[..10] == "alùt monde";
    assert "alùt monde"[10..] == "";
    assert "alùt monde" + "" == "alùt monde";
  }

  lemma Eval10()
    ensures Apply([Delete(1), Retain(10)], "çalùt monde") == Some("alùt monde")
  {
    Eval6();
    Eval9();
    assert [Delete(1), Retain(10)][1..] == [Retain(10)];
    assert "çalùt monde"[..1] == "ç";
    assert "çalùt monde"[1..] == "alùt monde";
    assert "" + "alùt monde" == "alùt monde";
  }

  lemma Eval11()
    ensures Apply([Insert("Ç"), Delete(1), Retain(10)], "çalùt monde") == Some("Çalùt monde")
  {
    Eval7();
    Eval10();
    assert [Insert("Ç"), Delete(1), Retain(10)][1..] == [Delete(1), Retain(10)];
    assert "çalùt monde"[..0] == "";
    assert "Ç" + "alùt monde" == "Çalùt monde";
  }

  lemma Eval12()
    ensures TargetLen([]) == 0
  {
  }

  lemma Eval13()
    ensures TargetLen([Retain(11)]) == 11
  {
    assert [Retain(11)][1..] == [];
    Eval12();
  }

  lemma Eval14()
    ensures ComposeLoop([Retain(11)], [Insert("Ç"), Delete(1), Retain(10)], []) == ComposeLoop([Retain(11)], [Delete(1), Retain(10)], [Insert("Ç")])
  {
    assert [Retain(11)][1..] == [];
    assert [Insert("Ç"), Delete(1), Retain(10)][1..] == [Delete(1), Retain(10)];
    assert AddInsert([], "Ç") == [Insert("Ç")];
  }

  lemma Eval15()
    ensures ComposeLoop([Retain(11)], [Delete(1), Retain(10)], [Insert("Ç")]) == ComposeLoop([Retain(10)], [Retain(10)], [Insert("Ç"), Delete(1)])
  {
    assert [Retain(11)][1..] == [];
    assert [Delete(1), Retain(10)][1..] == [Retain(10)];
    assert AddDelete([Insert("Ç")], 1) == [Insert("Ç"), Delete(1)];
  }

  lemma Eval16()
    ensures ComposeLoop([Retain(10)], [Retain(10)], [Insert("Ç"), Delete(1)]) == ComposeLoop([], [], [Insert("Ç"), Delete(1), Retain(10)])
  {
    assert [Retain(10)][1..] == [];
    assert AddRetain([Insert("Ç"), Delete(1)], 10) == [Insert("Ç"), Delete(1), Retain(10)];
  }

  lemma Eval17()
    ensures ComposeLoop([], [], [Insert("Ç"), Delete(1), Retain(10)]) == Some([Insert("Ç"), Delete(1), Retain(10)])
  {
  }

  lemma Eval18()
    ensures Compose([Retain(11)], [Insert("Ç"), Delete(1), Retain(10)]) == Some([Insert("Ç"), Delete(1), Retain(10)])
  {
    Eval13();
    Eval7();
    Eval14();
    Eval15();
    Eval16();
    Eval17();
  }

  lemma Eval19()
    ensures FromModsLoop(Chars, "çalùt monde", [TextModification(0, 1, "Ç"), TextModification(6, 1, "M")], [Retain(11)]) == FromModsLoop(Chars, "Çalùt monde", [TextModification(6, 1, "M")], [Insert("Ç"), Delete(1), Retain(10)])
  {
    assert [TextModification(0, 1, "Ç"), TextModification(6, 1, "M")][1..] == [TextModification(6, 1, "M")];
    Eval3();
    Eval11();
    Eval18();
  }

  lemma Eval20()
    ensures ModRange(Chars, "Çalùt monde", TextModification(6, 1, "M")) == Some((6, 7))
  {
  }

  lemma Eval21()
    ensures Replacement(6, 7, "M", 11) == [Retain(6), Insert("M"), Delete(1), Retain(4)]
  {
    assert AddRetain([], 6) == [Retain(6)];
    assert AddDelete([Retain(6)], 1) == [Retain(6), Delete(1)];
    assert [Retain(6), Delete(1)][..1] == [Retain(6)];
    assert AddInsert([Retain(6), Delete(1)], "M") == [Retain(6), Insert("M"), Delete(1)];
    assert AddRetain([Retain(6), Insert("M"), Delete(1)], 4) == [Retain(6), Insert("M"), Delete(1), Retain(4)];
  }

  lemma Eval22()
    ensures ModOp(Chars, "Çalùt monde", TextModification(6, 1, "M")) == Some([Retain(6), Insert("M"), Delete(1), Retain(4)])
  {
    Eval20();
    Eval21();
  }

  lemma Eval23()
    ensures BaseLen([Retain(4)]) == 4
  {
    assert [Retain(4)][1..] == [];
    Eval4();
  }

  lemma Eval24()
    ensures BaseLen([Delete(1), Retain(4)]) == 5
  {
    assert [Delete(1), Retain(4)][1..] == [Retain(4)];
    Eval23();
  }

  lemma Eval25()
    ensures BaseLen([Insert("M"), Delete(1), Retain(4)]) == 5
  {
    assert [Insert("M"), Delete(1), Retain(4)][1..] == [Delete(1), Retain(4)];
    Eval24();
  }

  lemma Eval26()
    ensures BaseLen([Retain(6), Insert("M"), Delete(1), Retain(4)]) == 11
  {
    assert [Retain(6), Insert("M"), Delete(1), Retain(4)][1..] == [Insert("M"), Delete(1), Retain(4)];
    Eval25();
  }

  lemma Eval27()
    ensures Apply([Retain(4)], "onde") == Some("onde")
  {
    Eval23();
    Eval8();
    assert [Retain(4)][1..] == [];
    assert "onde"[..4] == "onde";
    assert "onde"[4..] == "";
    assert "onde" + "" == "onde";
  }

  lemma Eval28()
    ensures Apply([Delete(1), Retain(4)], "monde") == Some("onde")
  {
    Eval24();
    Eval27();
    assert [Delete(1), Retain(4)][1..] == [Retain(4)];
    assert "monde"[..1] == "m";
    assert "monde"[1..] == "onde";
    assert "" + "onde" == "onde";
  }

  lemma Eval29()
    ensures Apply([Insert("M"), Delete(1), Retain(4)], "monde") == Some("Monde")
  {
    Eval25();
    Eval28();
    assert [Insert("M"), Delete(1), Retain(4)][1..] == [Delete(1), Retain(4)];
    assert "monde"[..0] == "";
    assert "M" + "onde" == "Monde";
  }

  lemma Eval30()
    ensures Apply([Retain(6), Insert("M"), Delete(1), Retain(4)], "Çalùt monde") == Some("Çalùt Monde")
  {
    Eval26();
    Eval29();
    assert [Retain(6), Insert("M"), Delete(1), Retain(4)][1..] == [Insert("M"), Delete(1), Retain(4)];
    assert "Çalùt monde"[..6] == "Çalùt ";
    assert "Çalùt monde"[6..] == "monde";
    assert "Çalùt " + "Monde" == "Çalùt Monde";
  }

  lemma Eval31()
    ensures TargetLen([Retain(10)]) == 10
  {
    assert [Retain(10)][1..] == [];
    Eval12();
  }

  lemma Eval32()
    ensures TargetLen([Delete(1), Retain(10)]) == 10
  {
    assert [Delete(1), Retain(10)][1..] == [Retain(10)];
    Eval31();
  }

  lemma Eval33()
    ensures TargetLen([Insert("Ç"), Delete(1), Retain(10)]) == 11
  {
    assert [Insert("Ç"), Delete(1), Retain(10)][1..] == [Delete(1), Retain(10)];
    Eval32();
  }

  lemma Eval34()
    ensures ComposeLoop([Insert("Ç"), Delete(1), Retain(10)], [Retain(6), Insert("M"), Delete(1), Retain(4)], []) == ComposeLoop([Delete(1), Retain(10)], [Retain(5), Insert("M"), Delete(1), Retain(4)], [Insert("Ç")])
  {
    assert [Insert("Ç"), Delete(1), Retain(10)][1..] == [Delete(1), Retain(10)];
    assert [Retain(6), Insert("M"), Delete(1), Retain(4)][1..] == [Insert("M"), Delete(1), Retain(4)];
    assert AddInsert([], "Ç") == [Insert("Ç")];
  }

  lemma Eval35()
    ensures ComposeLoop([Delete(1), Retain(10)], [Retain(5), Insert("M"), Delete(1), Retain(4)], [Insert("Ç")]) == ComposeLoop([Retain(10)], [Retain(5), Insert("M"), Delete(1), Retain(4)], [Insert("Ç"), Delete(1)])
  {
    assert [Delete(1), Retain(10)][1..] == [Retain(10)];
    assert [Retain(5), Insert("M"), Delete(1), Retain(4)][1..] == [Insert("M"), Delete(1), Retain(4)];
    assert AddDelete([Insert("Ç")], 1) == [Insert("Ç"), Delete(1)];
  }

  lemma Eval36()
    ensures ComposeLoop([Retain(10)], [Retain(5), Insert("M"), Delete(1), Retain(4)], [Insert("Ç"), Delete(1)]) == ComposeLoop([Retain(5)], [Insert("M"), Delete(1), Retain(4)], [Insert("Ç"), Delete(1), Retain(5)])
  {
    assert [Retain(10)][1..] == [];
    assert [Retain(5), Insert("M"), Delete(1), Retain(4)][1..] == [Insert("M"), Delete(1), Retain(4)];
    assert AddRetain([Insert("Ç"), Delete(1)], 5) == [Insert("Ç"), Delete(1), Retain(5)];
  }

  lemma Eval37()
    ensures ComposeLoop([Retain(5)], [Insert("M"), Delete(1), Retain(4)], [Insert("Ç"), Delete(1), Retain(5)]) == ComposeLoop([Retain(5)], [Delete(1), Retain(4)], [Insert("Ç"), Delete(1), Retain(5), Insert("M")])
  {
    assert [Retain(5)][1..] == [];
    assert [Insert("M"), Delete(1), Retain(4)][1..] == [Delete(1), Retain(4)];
    assert AddInsert([Insert("Ç"), Delete(1), Retain(5)], "M") == [Insert("Ç"), Delete(1), Retain(5), Insert("M")];
  }

  lemma Eval38()
    ensures ComposeLoop([Retain(5)], [Delete(1), Retain(4)], [Insert("Ç"), Delete(1), Retain(5), Insert("M")]) == ComposeLoop([Retain(4)], [Retain(4)], [Insert("Ç"), Delete(1), Retain(5), Insert("M"), Delete(1)])
  {
    assert [Retain(5)][1..] == [];
    assert [Delete(1), Retain(4)][1..] == [Retain(4)];
    assert AddDelete([Insert("Ç"), Delete(1), Retain(5), Insert("M")], 1) == [Insert("Ç"), Delete(1), Retain(5), Insert("M"), Delete(1)];
  }

  lemma Eval39()
    ensures ComposeLoop([Retain(4)], [Retain(4)], [Insert("Ç"), Delete(1), Retain(5), Insert("M"), Delete(1)]) == ComposeLoop([], [], [Insert("Ç"), Delete(1), Retain(5), Insert("M"), Delete(1), Retain(4)])
  {
    assert [Retain(4)][1..] == [];
    assert AddRetain([Insert("Ç"), Delete(1), Retain(5), Insert("M"), Delete(1)], 4) == [Insert("Ç"), Delete(1), Retain(5), Insert("M"), Delete(1), Retain(4)];
  }

  lemma Eval40()
    ensures ComposeLoop([], [], [Insert("Ç"), Delete(1), Retain(5), Insert("M"), Delete(1), Retain(4)]) == Some([Insert("Ç"), Delete(1), Retain(5), Insert("M"), Delete(1), Retain(4)])
  {
  }

  lemma Eval41()
    ensures Compose([Insert("Ç"), Delete(1), Retain(10)], [Retain(6), Insert("M"), Delete(1), Retain(4)]) == Some([Insert("Ç"), Delete(1), Retain(5), Insert("M"), Delete(1), Retain(4)])
  {
    Eval33();
    Eval26();
    Eval34();
    Eval35();
    Eval36();
    Eval37();
    Eval38();
    Eval39();
    Eval40();
  }

  lemma Eval42()
    ensures FromModsLoop(Chars, "Çalùt monde", [TextModification(6, 1, "M")], [Insert("Ç"), Delete(1), Retain(10)]) == FromModsLoop(Chars, "Çalùt Monde", [], [Insert("Ç"), Delete(1), Retain(5), Insert("M"), Delete(1), Retain(4)])
  {
    assert [TextModification(6, 1, "M")][1..] == [];
    Eval22();
    Eval30();
    Eval41();
  }

  lemma Eval43()
    ensures FromModsLoop(Chars, "Çalùt Monde", [], [Insert("Ç"), Delete(1), Retain(5), Insert("M"), Delete(1), Retain(4)]) == Some([Insert("Ç"), Delete(1), Retain(5), Insert("M"), Delete(1), Retain(4)])
  {
  }

  lemma Eval44()
    ensures FromModifications(Chars, "çalùt monde", [TextModification(0, 1, "Ç"), TextModification(6, 1, "M")]) == Some([Insert("Ç"), Delete(1), Retain(5), Insert("M"), Delete(1), Retain(4)])
  {
    assert AddRetain([], 11) == [Retain(11)];
    assert Identity("çalùt monde") == [Retain(11)];
    Eval19();
    Eval42();
    Eval43();
  }

  lemma Eval45()
    ensures BaseLen([Retain(5), Insert("M"), Delete(1), Retain(4)]) == 10
  {
    assert [Retain(5), Insert("M"), Delete(1), Retain(4)][1..] == [Insert("M"), Delete(1), Retain(4)];
    Eval25();
  }

  lemma Eval46()
    ensures BaseLen([Delete(1), Retain(5), Insert("M"), Delete(1), Retain(4)]) == 11
  {
    assert [Delete(1), Retain(5), Insert("M"), Delete(1), Retain(4)][1..] == [Retain(5), Insert("M"), Delete(1), Retain(4)];
    Eval45();
  }

  lemma Eval47()
    ensures BaseLen([Insert("Ç"), Delete(1), Retain(5), Insert("M"), Delete(1), Retain(4)]) == 11
  {
    assert [Insert("Ç"), Delete(1), Retain(5), Insert("M"), Delete(1), Retain(4)][1..] == [Delete(1), Retain(5), Insert("M"), Delete(1), Retain(4)];
    Eval46();
  }

  lemma Eval48()
    ensures Apply([Retain(5), Insert("M"), Delete(1), Retain(4)], "alùt monde") == Some("alùt Monde")
  {
    Eval45();
    Eval29();
    assert [Retain(5), Insert("M"), Delete(1), Retain(4)][1..] == [Insert("M"), Delete(1), Retain(4)];
    assert "alùt monde"[..5] == "alùt ";
    assert "alùt monde"[5..] == "monde";
    assert "alùt " + "Monde" == "alùt Monde";
  }

  lemma Eval49()
    ensures Apply([Delete(1), Retain(5), Insert("M"), Delete(1), Retain(4)], "çalùt monde") == Some("alùt Monde")
  {
    Eval46();
    Eval48();
    assert [Delete(1), Retain(5), Insert("M"), Delete(1), Retain(4)][1..] == [Retain(5), Insert("M"), Delete(1), Retain(4)];
    assert "çalùt monde"[..1] == "ç";
    assert "çalùt monde"[1..] == "alùt monde";
    assert "" + "alùt Monde" == "alùt Monde";
  }

  lemma Eval50()
    ensures Apply([Insert("Ç"), Delete(1), Retain(5), Insert("M"), Delete(1), Retain(4)], "çalùt monde") == Some("Çalùt Monde")
  {
    Eval47();
    Eval49();
    assert [Insert("Ç"), Delete(1), Retain(5), Insert("M"), Delete(1), Retain(4)][1..] == [Delete(1), Retain(5), Insert("M"), Delete(1), Retain(4)];
    assert "çalùt monde"[..0] == "";
    assert "Ç" + "alùt Monde" == "Çalùt Monde";
  }

  lemma Eval51()
    ensures RebaseIde(Chars, Synced, [Insert("Ç"), Delete(1), Retain(5), Insert("M"), Delete(1), Retain(4)], "Çalùt Monde") == Some(([Insert("Ç"), Delete(1), Retain(5), Insert("M"), Delete(1), Retain(4)], Synced, [Ack]))
  {
  }

  lemma Eval52()
    ensures Build([]) == []
  {
  }

  lemma Eval53()
    ensures Build([Insert("Ç")]) == [Insert("Ç")]
  {
    assert [Insert("Ç")][..0] == [];
    Eval52();
    assert AddInsert([], "Ç") == [Insert("Ç")];
  }

  lemma Eval54()
    ensures Build([Insert("Ç"), Delete(1)]) == [Insert("Ç"), Delete(1)]
  {
    assert [Insert("Ç"), Delete(1)][..1] == [Insert("Ç")];
    Eval53();
    assert AddDelete([Insert("Ç")], 1) == [Insert("Ç"), Delete(1)];
  }

  lemma Eval55()
    ensures Build([Insert("Ç"), Delete(1), Retain(5)]) == [Insert("Ç"), Delete(1), Retain(5)]
  {
    assert [Insert("Ç"), Delete(1), Retain(5)][..2] == [Insert("Ç"), Delete(1)];
    Eval54();
    assert AddRetain([Insert("Ç"), Delete(1)], 5) == [Insert("Ç"), Delete(1), Retain(5)];
  }

  lemma Eval56()
    ensures Build([Insert("Ç"), Delete(1), Retain(5), Insert("M")]) == [Insert("Ç"), Delete(1), Retain(5), Insert("M")]
  {
    assert [Insert("Ç"), Delete(1), Retain(5), Insert("M")][..3] == [Insert("Ç"), Delete(1), Retain(5)];
    Eval55();
    assert AddInsert([Insert("Ç"), Delete(1), Retain(5)], "M") == [Insert("Ç"), Delete(1), Retain(5), Insert("M")];
  }

  lemma Eval57()
    ensures Build([Insert("Ç"), Delete(1), Retain(5), Insert("M"), Delete(1)]) == [Insert("Ç"), Delete(1), Retain(5), Insert("M"), Delete(1)]
  {
    assert [Insert("Ç"), Delete(1), Retain(5), Insert("M"), Delete(1)][..4] == [Insert("Ç"), Delete(1), Retain(5), Insert("M")];
    Eval56();
    assert AddDelete([Insert("Ç"), Delete(1), Retain(5), Insert("M")], 1) == [Insert("Ç"), Delete(1), Retain(5), Insert("M"), Delete(1)];
  }

  lemma Eval58()
    ensures Build([Insert("Ç"), Delete(1), Retain(5), Insert("M"), Delete(1), Retain(4)]) == [Insert("Ç"), Delete(1), Retain(5), Insert("M"), Delete(1), Retain(4)]
  {
    assert [Insert("Ç"), Delete(1), Retain(5), Insert("M"), Delete(1), Retain(4)][..5] == [Insert("Ç"), Delete(1), Retain(5), Insert("M"), Delete(1)];
    Eval57();
    assert AddRetain([Insert("Ç"), Delete(1), Retain(5), Insert("M"), Delete(1)], 4) == [Insert("Ç"), Delete(1), Retain(5), Insert("M"), Delete(1), Retain(4)];
  }

  lemma Eval59()
    ensures ByteToChar("çalùt monde", 0) == Some(0)
  {
  }

  lemma Eval60()
    ensures ByteToChar("alùt monde", 0) == Some(0)
  {
  }

  lemma Eval61()
    ensures ByteToChar("çalùt monde", 2) == Some(1)
  {
    assert "çalùt monde"[1..] == "alùt monde";
    Eval60();
  }

  lemma Eval62()
    ensures ModRange(Bytes, "çalùt monde", TextModification(0, 2, "Ç")) == Some((0, 1))
  {
    Eval59();
    Eval61();
  }

  lemma Eval63()
    ensures ModOp(Bytes, "çalùt monde", TextModification(0, 2, "Ç")) == Some([Insert("Ç"), Delete(1), Retain(10)])
  {
    Eval62();
    Eval2();
  }

  lemma Eval64()
    ensures FromModsLoop(Bytes, "çalùt monde", [TextModification(0, 2, "Ç"), TextModification(8, 1, "M")], [Retain(11)]) == FromModsLoop(Bytes, "Çalùt monde", [TextModification(8, 1, "M")], [Insert("Ç"), Delete(1), Retain(10)])
  {
    assert [TextModification(0, 2, "Ç"), TextModification(8, 1, "M")][1..] == [TextModification(8, 1, "M")];
    Eval63();
    Eval11();
    Eval18();
  }

  lemma Eval65()
    ensures ByteToChar("monde", 0) == Some(0)
  {
  }

  lemma Eval66()
    ensures ByteToChar(" monde", 1) == Some(1)
  {
    assert " monde"[1..] == "monde";
    Eval65();
  }

  lemma Eval67()
    ensures ByteToChar("t monde", 2) == Some(2)
  {
    assert "t monde"[1..] == " monde";
    Eval66();
  }

  lemma Eval68()
    ensures ByteToChar("ùt monde", 4) == Some(3)
  {
    assert "ùt monde"[1..] == "t monde";
    Eval67();
  }

  lemma Eval69()
    ensures ByteToChar("lùt monde", 5) == Some(4)
  {
    assert "lùt monde"[1..] == "ùt monde";
    Eval68();
  }

  lemma Eval70()
    ensures ByteToChar("alùt monde", 6) == Some(5)
  {
    assert "alùt monde"[1..] == "lùt monde";
    Eval69();
  }

  lemma Eval71()
    ensures ByteToChar("Çalùt monde", 8) == Some(6)
  {
    assert "Çalùt monde"[1..] == "alùt monde";
    Eval70();
  }

  lemma Eval72()
    ensures ByteToChar("onde", 0) == Some(0)
  {
  }

  lemma Eval73()
    ensures ByteToChar("monde", 1) == Some(1)
  {
    assert "monde"[1..] == "onde";
    Eval72();
  }

  lemma Eval74()
    ensures ByteToChar(" monde", 2) == Some(2)
  {
    assert " monde"[1..] == "monde";
    Eval73();
  }

  lemma Eval75()
    ensures ByteToChar("t monde", 3) == Some(3)
  {
    assert "t monde"[1..] == " monde";
    Eval74();
  }

  lemma Eval76()
    ensures ByteToChar("ùt monde", 5) == Some(4)
  {
    assert "ùt monde"[1..] == "t monde";
    Eval75();
  }

  lemma Eval77()
    ensures ByteToChar("lùt monde", 6) == Some(5)
  {
    assert "lùt monde"[1..] == "ùt monde";
    Eval76();
  }

  lemma Eval78()
    ensures ByteToChar("alùt monde", 7) == Some(6)
  {
    assert "alùt monde"[1..] == "lùt monde";
    Eval77();
  }

  lemma Eval79()
    ensures ByteToChar("Çalùt monde", 9) == Some(7)
  {
    assert "Çalùt monde"[1..] == "alùt monde";
    Eval78();
  }

  lemma Eval80()
    ensures ModRange(Bytes, "Çalùt monde", TextModification(8, 1, "M")) == Some((6, 7))
  {
    Eval71();
    Eval79();
  }

  lemma Eval81()
    ensures ModOp(Bytes, "Çalùt monde", TextModification(8, 1, "M")) == Some([Retain(6), Insert("M"), Delete(1), Retain(4)])
  {
    Eval80();
    Eval21();
  }

  lemma Eval82()
    ensures FromModsLoop(Bytes, "Çalùt monde", [TextModification(8, 1, "M")], [Insert("Ç"), Delete(1), Retain(10)]) == FromModsLoop(Bytes, "Çalùt Monde", [], [Insert("Ç"), Delete(1), Retain(5), Insert("M"), Delete(1), Retain(4)])
  {
    assert [TextModification(8, 1, "M")][1..] == [];
    Eval81();
    Eval30();
    Eval41();
  }

  lemma Eval83()
    ensures FromModsLoop(Bytes, "Çalùt Monde", [], [Insert("Ç"), Delete(1), Retain(5), Insert("M"), Delete(1), Retain(4)]) == Some([Insert("Ç"), Delete(1), Retain(5), Insert("M"), Delete(1), Retain(4)])
  {
  }

  lemma Eval84()
    ensures FromModifications(Bytes, "çalùt monde", [TextModification(0, 2, "Ç"), TextModification(8, 1, "M")]) == Some([Insert("Ç"), Delete(1), Retain(5), Insert("M"), Delete(1), Retain(4)])
  {
    assert AddRetain([], 11) == [Retain(11)];
    assert Identity("çalùt monde") == [Retain(11)];
    Eval64();
    Eval82();
    Eval83();
  }

  lemma Eval85()
    ensures RebaseIde(Bytes, Synced, [Insert("Ç"), Delete(1), Retain(5), Insert("M"), Delete(1), Retain(4)], "Çalùt Monde") == Some(([Insert("Ç"), Delete(1), Retain(5), Insert("M"), Delete(1), Retain(4)], Synced, [Ack]))
  {
  }

  lemma Eval86()
    ensures Rebase(Synced, [Insert("Ç"), Delete(1), Retain(5), Insert("M"), Delete(1), Retain(4)]) == Some(([Insert("Ç"), Delete(1), Retain(5), Insert("M"), Delete(1), Retain(4)], Synced))
  {
  }

  lemma Eval87()
    ensures Flush(Chars, "Çalùt Monde", "", "") == []
  {
  }

  lemma Eval88()
    requires BaseLen([]) == 0
    ensures ToModsLoop(Chars, [], "", "Çalùt Monde", "", "") == []
  {
    Eval87();
  }

  lemma Eval89()
    ensures Flush(Chars, "Çalùt ", "m", "M") == [TextModification(6, 1, "M")]
  {
  }

  lemma Eval90()
    requires BaseLen([Retain(4)]) == 4
    ensures ToModsLoop(Chars, [Retain(4)], "onde", "Çalùt ", "m", "M") == [TextModification(6, 1, "M")]
  {
    Eval23();
    Eval4();
    assert [Retain(4)][1..] == [];
    ToModsRetainUnfold(Chars, [Retain(4)], "onde", "Çalùt ", "m", "M");
    assert "onde"[..4] == "onde";
    assert "onde"[4..] == "";
    assert "Çalùt " + "M" == "Çalùt M";
    assert "Çalùt M" + "onde" == "Çalùt Monde";
    Eval89();
    Eval88();
    assert [TextModification(6, 1, "M")] + [] == [TextModification(6, 1, "M")];
  }

  lemma Eval91()
    requires BaseLen([Delete(1), Retain(4)]) == 5
    ensures ToModsLoop(Chars, [Delete(1), Retain(4)], "monde", "Çalùt ", "", "M") == [TextModification(6, 1, "M")]
  {
    Eval24();
    Eval23();
    assert [Delete(1), Retain(4)][1..] == [Retain(4)];
    assert "monde"[..1] == "m";
    assert "monde"[1..] == "onde";
    assert "" + "m" == "m";
    Eval90();
  }

  lemma Eval92()
    requires BaseLen([Insert("M"), Delete(1), Retain(4)]) == 5
    ensures ToModsLoop(Chars, [Insert("M"), Delete(1), Retain(4)], "monde", "Çalùt ", "", "") == [TextModification(6, 1, "M")]
  {
    Eval25();
    Eval24();
    assert [Insert("M"), Delete(1), Retain(4)][1..] == [Delete(1), Retain(4)];
    assert "" + "M" == "M";
    Eval91();
  }

  lemma Eval93()
    ensures Flush(Chars, "", "ç", "Ç") == [TextModification(0, 1, "Ç")]
  {
  }

  lemma Eval94()
    requires BaseLen([Retain(5), Insert("M"), Delete(1), Retain(4)]) == 10
    ensures ToModsLoop(Chars, [Retain(5), Insert("M"), Delete(1), Retain(4)], "alùt monde", "", "ç", "Ç") == [TextModification(0, 1, "Ç"), TextModification(6, 1, "M")]
  {
    Eval45();
    Eval25();
    assert [Retain(5), Insert("M"), Delete(1), Retain(4)][1..] == [Insert("M"), Delete(1), Retain(4)];
    ToModsRetainUnfold(Chars, [Retain(5), Insert("M"), Delete(1), Retain(4)], "alùt monde", "", "ç", "Ç");
    assert "alùt monde"[..5] == "alùt ";
    assert "alùt monde"[5..] == "monde";
    assert "" + "Ç" == "Ç";
    assert "Ç" + "alùt " == "Çalùt ";
    Eval93();
    Eval92();
    assert [TextModification(0, 1, "Ç")] + [TextModification(6, 1, "M")] == [TextModification(0, 1, "Ç"), TextModification(6, 1, "M")];
  }

  lemma Eval95()
    requires BaseLen([Delete(1), Retain(5), Insert("M"), Delete(1), Retain(4)]) == 11
    ensures ToModsLoop(Chars, [Delete(1), Retain(5), Insert("M"), Delete(1), Retain(4)], "çalùt monde", "", "", "Ç") == [TextModification(0, 1, "Ç"), TextModification(6, 1, "M")]
  {
    Eval46();
    Eval45();
    assert [Delete(1), Retain(5), Insert("M"), Delete(1), Retain(4)][1..] == [Retain(5), Insert("M"), Delete(1), Retain(4)];
    assert "çalùt monde"[..1] == "ç";
    assert "çalùt monde"[1..] == "alùt monde";
    assert "" + "ç" == "ç";
    Eval94();
  }

  lemma Eval96()
    requires BaseLen([Insert("Ç"), Delete(1), Retain(5), Insert("M"), Delete(1), Retain(4)]) == 11
    ensures ToModsLoop(Chars, [Insert("Ç"), Delete(1), Retain(5), Insert("M"), Delete(1), Retain(4)], "çalùt monde", "", "", "") == [TextModification(0, 1, "Ç"), TextModification(6, 1, "M")]
  {
    Eval47();
    Eval46();
    assert [Insert("Ç"), Delete(1), Retain(5), Insert("M"), Delete(1), Retain(4)][1..] == [Delete(1), Retain(5), Insert("M"), Delete(1), Retain(4)];
    assert "" + "Ç" == "Ç";
    Eval95();
  }

  lemma Eval97()
    ensures UpdateFor(Chars, [Insert("Ç"), Delete(1), Retain(5), Insert("M"), Delete(1), Retain(4)], "çalùt monde") == Some(Update([TextModification(0, 1, "Ç"), TextModification(6, 1, "M")]))
  {
    Eval47();
    Eval96();
  }

  lemma Eval98()
    ensures Flush(Bytes, "Çalùt Monde", "", "") == []
  {
  }

  lemma Eval99()
    requires BaseLen([]) == 0
    ensures ToModsLoop(Bytes, [], "", "Çalùt Monde", "", "") == []
  {
    Eval98();
  }

  lemma Eval100()
    ensures ByteLen("") == 0
  {
  }

  lemma Eval101()
    ensures ByteLen(" ") == 1
  {
    assert " "[1..] == "";
    Eval100();
  }

  lemma Eval102()
    ensures ByteLen("t ") == 2
  {
    assert "t "[1..] == " ";
    Eval101();
  }

  lemma Eval103()
    ensures ByteLen("ùt ") == 4
  {
    assert "ùt "[1..] == "t ";
    Eval102();
  }

  lemma Eval104()
    ensures ByteLen("lùt ") == 5
  {
    assert "lùt "[1..] == "ùt ";
    Eval103();
  }

  lemma Eval105()
    ensures ByteLen("alùt ") == 6
  {
    assert "alùt "[1..] == "lùt ";
    Eval104();
  }

  lemma Eval106()
    ensures ByteLen("Çalùt ") == 8
  {
    assert "Çalùt "[1..] == "alùt ";
    Eval105();
  }

  lemma Eval107()
    ensures ByteLen("m") == 1
  {
    assert "m"[1..] == "";
    Eval100();
  }

  lemma Eval108()
    ensures Flush(Bytes, "Çalùt ", "m", "M") == [TextModification(8, 1, "M")]
  {
    Eval106();
    Eval107();
  }

  lemma Eval109()
    requires BaseLen([Retain(4)]) == 4
    ensures ToModsLoop(Bytes, [Retain(4)], "onde", "Çalùt ", "m", "M") == [TextModification(8, 1, "M")]
  {
    Eval23();
    Eval4();
    assert [Retain(4)][1..] == [];
    ToModsRetainUnfold(Bytes, [Retain(4)], "onde", "Çalùt ", "m", "M");
    assert "onde"[..4] == "onde";
    assert "onde"[4..] == "";
    assert "Çalùt " + "M" == "Çalùt M";
    assert "Çalùt M" + "onde" == "Çalùt Monde";
    Eval108();
    Eval99();
    assert [TextModification(8, 1, "M")] + [] == [TextModification(8, 1, "M")];
  }

  lemma Eval110()
    requires BaseLen([Delete(1), Retain(4)]) == 5
    ensures ToModsLoop(Bytes, [Delete(1), Retain(4)], "monde", "Çalùt ", "", "M") == [TextModification(8, 1, "M")]
  {
    Eval24();
    Eval23();
    assert [Delete(1), Retain(4)][1..] == [Retain(4)];
    assert "monde"[..1] == "m";
    assert "monde"[1..] == "onde";
    assert "" + "m" == "m";
    Eval109();
  }

  lemma Eval111()
    requires BaseLen([Insert("M"), Delete(1), Retain(4)]) == 5
    ensures ToModsLoop(Bytes, [Insert("M"), Delete(1), Retain(4)], "monde", "Çalùt ", "", "") == [TextModification(8, 1, "M")]
  {
    Eval25();
    Eval24();
    assert [Insert("M"), Delete(1), Retain(4)][1..] == [Delete(1), Retain(4)];
    assert "" + "M" == "M";
    Eval110();
  }

  lemma Eval112()
    ensures ByteLen("ç") == 2
  {
    assert "ç"[1..] == "";
    Eval100();
  }

  lemma Eval113()
    ensures Flush(Bytes, "", "ç", "Ç") == [TextModification(0, 2, "Ç")]
  {
    Eval100();
    Eval112();
  }

  lemma Eval114()
    requires BaseLen([Retain(5), Insert("M"), Delete(1), Retain(4)]) == 10
    ensures ToModsLoop(Bytes, [Retain(5), Insert("M"), Delete(1), Retain(4)], "alùt monde", "", "ç", "Ç") == [TextModification(0, 2, "Ç"), TextModification(8, 1, "M")]
  {
    Eval45();
    Eval25();
    assert [Retain(5), Insert("M"), Delete(1), Retain(4)][1..] == [Insert("M"), Delete(1), Retain(4)];
    ToModsRetainUnfold(Bytes, [Retain(5), Insert("M"), Delete(1), Retain(4)], "alùt monde", "", "ç", "Ç");
    assert "alùt monde"[..5] == "alùt ";
    assert "alùt monde"[5..] == "monde";
    assert "" + "Ç" == "Ç";
    assert "Ç" + "alùt " == "Çalùt ";
    Eval113();
    Eval111();
    assert [TextModification(0, 2, "Ç")] + [TextModification(8, 1, "M")] == [TextModification(0, 2, "Ç"), TextModification(8, 1, "M")];
  }

  lemma Eval115()
    requires BaseLen([Delete(1), Retain(5), Insert("M"), Delete(1), Retain(4)]) == 11
    ensures ToModsLoop(Bytes, [Delete(1), Retain(5), Insert("M"), Delete(1), Retain(4)], "çalùt monde", "", "", "Ç") == [TextModification(0, 2, "Ç"), TextModification(8, 1, "M")]
  {
    Eval46();
    Eval45();
    assert [Delete(1), Retain(5), Insert("M"), Delete(1), Retain(4)][1..] == [Retain(5), Insert("M"), Delete(1), Retain(4)];
    assert "çalùt monde"[..1] == "ç";
    assert "çalùt monde"[1..] == "alùt monde";
    assert "" + "ç" == "ç";
    Eval114();
  }

  lemma Eval116()
    requires BaseLen([Insert("Ç"), Delete(1), Retain(5), Insert("M"), Delete(1), Retain(4)]) == 11
    ensures ToModsLoop(Bytes, [Insert("Ç"), Delete(1), Retain(5), Insert("M"), Delete(1), Retain(4)], "çalùt monde", "", "", "") == [TextModification(0, 2, "Ç"), TextModification(8, 1, "M")]
  {
    Eval47();
    Eval46();
    assert [Insert("Ç"), Delete(1), Retain(5), Insert("M"), Delete(1), Retain(4)][1..] == [Delete(1), Retain(5), Insert("M"), Delete(1), Retain(4)];
    assert "" + "Ç" == "Ç";
    Eval115();
  }

  lemma Eval117()
    ensures UpdateFor(Bytes, [Insert("Ç"), Delete(1), Retain(5), Insert("M"), Delete(1), Retain(4)], "çalùt monde") == Some(Update([TextModification(0, 2, "Ç"), TextModification(8, 1, "M")]))
  {
    Eval47();
    Eval116();
  }

  lemma Eval118()
    ensures Build([Retain(11)]) == [Retain(11)]
  {
    assert [Retain(11)][..0] == [];
    Eval52();
    assert AddRetain([], 11) == [Retain(11)];
  }

  lemma Eval119()
    ensures Build([Retain(11), Insert("!")]) == [Retain(11), Insert("!")]
  {
    assert [Retain(11), Insert("!")][..1] == [Retain(11)];
    Eval118();
    assert AddInsert([Retain(11)], "!") == [Retain(11), Insert("!")];
  }

  lemma Eval120()
    ensures Rebase(Synced, [Retain(11), Insert("!")]) == Some(([Retain(11), Insert("!")], Synced))
  {
  }

  lemma Eval121()
    ensures BaseLen([Insert("!")]) == 0
  {
    assert [Insert("!")][1..] == [];
    Eval4();
  }

  lemma Eval122()
    ensures BaseLen([Retain(11), Insert("!")]) == 11
  {
    assert [Retain(11), Insert("!")][1..] == [Insert("!")];
    Eval121();
  }

  lemma Eval123()
    ensures Apply([Insert("!")], "") == Some("!")
  {
    Eval121();
    Eval8();
    assert [Insert("!")][1..] == [];
    assert ""[..0] == "";
    assert "!" + "" == "!";
  }

  lemma Eval124()
    ensures Apply([Retain(11), Insert("!")], "Hello world") == Some("Hello world!")
  {
    Eval122();
    Eval123();
    assert [Retain(11), Insert("!")][1..] == [Insert("!")];
    assert "Hello world"[..11] == "Hello world";
    assert "Hello world"[11..] == "";
    assert "Hello world" + "!" == "Hello world!";
  }

  lemma Eval125()
    ensures Flush(Chars, "Hello world", "", "!") == [TextModification(11, 0, "!")]
  {
  }

  lemma Eval126()
    requires BaseLen([]) == 0
    ensures ToModsLoop(Chars, [], "", "Hello world", "", "!") == [TextModification(11, 0, "!")]
  {
    Eval125();
  }

  lemma Eval127()
    requires BaseLen([Insert("!")]) == 0
    ensures ToModsLoop(Chars, [Insert("!")], "", "Hello world", "", "") == [TextModification(11, 0, "!")]
  {
    Eval121();
    Eval4();
    assert [Insert("!")][1..] == [];
    assert "" + "!" == "!";
    Eval126();
  }

  lemma Eval128()
    ensures Flush(Chars, "", "", "") == []
  {
  }

  lemma Eval129()
    requires BaseLen([Retain(11), Insert("!")]) == 11
    ensures ToModsLoop(Chars, [Retain(11), Insert("!")], "Hello world", "", "", "") == [TextModification(11, 0, "!")]
  {
    Eval122();
    Eval121();
    assert [Retain(11), Insert("!")][1..] == [Insert("!")];
    ToModsRetainUnfold(Chars, [Retain(11), Insert("!")], "Hello world", "", "", "");
    assert "Hello world"[..11] == "Hello world";
    assert "Hello world"[11..] == "";
    assert "" + "" == "";
    assert "" + "Hello world" == "Hello world";
    Eval128();
    Eval127();
    assert [] + [TextModification(11, 0, "!")] == [TextModification(11, 0, "!")];
  }

  lemma Eval130()
    ensures UpdateFor(Chars, [Retain(11), Insert("!")], "Hello world") == Some(Update([TextModification(11, 0, "!")]))
  {
    Eval122();
    Eval129();
  }

  lemma Eval131()
    ensures ModRange(Chars, "Hello world", TextModification(5, 0, " new")) == Some((5, 5))
  {
  }

  lemma Eval132()
    ensures Replacement(5, 5, " new", 11) == [Retain(5), Insert(" new"), Retain(6)]
  {
    assert AddRetain([], 5) == [Retain(5)];
    assert AddDelete([Retain(5)], 0) == [Retain(5)];
    assert AddInsert([Retain(5)], " new") == [Retain(5), Insert(" new")];
    assert AddRetain([Retain(5), Insert(" new")], 6) == [Retain(5), Insert(" new"), Retain(6)];
  }

  lemma Eval133()
    ensures ModOp(Chars, "Hello world", TextModification(5, 0, " new")) == Some([Retain(5), Insert(" new"), Retain(6)])
  {
    Eval131();
    Eval132();
  }

  lemma Eval134()
    ensures BaseLen([Retain(6)]) == 6
  {
    assert [Retain(6)][1..] == [];
    Eval4();
  }

  lemma Eval135()
    ensures BaseLen([Insert(" new"), Retain(6)]) == 6
  {
    assert [Insert(" new"), Retain(6)][1..] == [Retain(6)];
    Eval134();
  }

  lemma Eval136()
    ensures BaseLen([Retain(5), Insert(" new"), Retain(6)]) == 11
  {
    assert [Retain(5), Insert(" new"), Retain(6)][1..] == [Insert(" new"), Retain(6)];
    Eval135();
  }

  lemma Eval137()
    ensures Apply([Retain(6)], " world") == Some(" world")
  {
    Eval134();
    Eval8();
    assert [Retain(6)][1..] == [];
    assert " world"[..6] == " world";
    assert " world"[6..] == "";
    assert " world" + "" == " world";
  }

  lemma Eval138()
    ensures Apply([Insert(" new"), Retain(6)], " world") == Some(" new world")
  {
    Eval135();
    Eval137();
    assert [Insert(" new"), Retain(6)][1..] == [Retain(6)];
    assert " world"[..0] == "";
    assert " new" + " world" == " new world";
  }

  lemma Eval139()
    ensures Apply([Retain(5), Insert(" new"), Retain(6)], "Hello world") == Some("Hello new world")
  {
    Eval136();
    Eval138();
    assert [Retain(5), Insert(" new"), Retain(6)][1..] == [Insert(" new"), Retain(6)];
    assert "Hello world"[..5] == "Hello";
    assert "Hello world"[5..] == " world";
    assert "Hello" + " new world" == "Hello new world";
  }

  lemma Eval140()
    ensures ComposeLoop([Retain(11)], [Retain(5), Insert(" new"), Retain(6)], []) == ComposeLoop([Retain(6)], [Insert(" new"), Retain(6)], [Retain(5)])
  {
    assert [Retain(11)][1..] == [];
    assert [Retain(5), Insert(" new"), Retain(6)][1..] == [Insert(" new"), Retain(6)];
    assert AddRetain([], 5) == [Retain(5)];
  }

  lemma Eval141()
    ensures ComposeLoop([Retain(6)], [Insert(" new"), Retain(6)], [Retain(5)]) == ComposeLoop([Retain(6)], [Retain(6)], [Retain(5), Insert(" new")])
  {
    assert [Retain(6)][1..] == [];
    assert [Insert(" new"), Retain(6)][1..] == [Retain(6)];
    assert AddInsert([Retain(5)], " new") == [Retain(5), Insert(" new")];
  }

  lemma Eval142()
    ensures ComposeLoop([Retain(6)], [Retain(6)], [Retain(5), Insert(" new")]) == ComposeLoop([], [], [Retain(5), Insert(" new"), Retain(6)])
  {
    assert [Retain(6)][1..] == [];
    assert AddRetain([Retain(5), Insert(" new")], 6) == [Retain(5), Insert(" new"), Retain(6)];
  }

  lemma Eval143()
    ensures ComposeLoop([], [], [Retain(5), Insert(" new"), Retain(6)]) == Some([Retain(5), Insert(" new"), Retain(6)])
  {
  }

  lemma Eval144()
    ensures Compose([Retain(11)], [Retain(5), Insert(" new"), Retain(6)]) == Some([Retain(5), Insert(" new"), Retain(6)])
  {
    Eval13();
    Eval136();
    Eval140();
    Eval141();
    Eval142();
    Eval143();
  }

  lemma Eval145()
    ensures FromModsLoop(Chars, "Hello world", [TextModification(5, 0, " new")], [Retain(11)]) == FromModsLoop(Chars, "Hello new world", [], [Retain(5), Insert(" new"), Retain(6)])
  {
    assert [TextModification(5, 0, " new")][1..] == [];
    Eval133();
    Eval139();
    Eval144();
  }

  lemma Eval146()
    ensures FromModsLoop(Chars, "Hello new world", [], [Retain(5), Insert(" new"), Retain(6)]) == Some([Retain(5), Insert(" new"), Retain(6)])
  {
  }

  lemma Eval147()
    ensures FromModifications(Chars, "Hello world", [TextModification(5, 0, " new")]) == Some([Retain(5), Insert(" new"), Retain(6)])
  {
    assert AddRetain([], 11) == [Retain(11)];
    assert Identity("Hello world") == [Retain(11)];
    Eval145();
    Eval146();
  }

  lemma Eval148()
    ensures Outstanding([Retain(11), Insert("!")], None) == Some([Retain(11), Insert("!")])
  {
  }

  lemma Eval149()
    ensures TransformLoop([Retain(11), Insert("!")], [Retain(5), Insert(" new"), Retain(6)], [], []) == TransformLoop([Retain(6), Insert("!")], [Insert(" new"), Retain(6)], [Retain(5)], [Retain(5)])
  {
    assert [Retain(11), Insert("!")][1..] == [Insert("!")];
    assert [Retain(5), Insert(" new"), Retain(6)][1..] == [Insert(" new"), Retain(6)];
    assert AddRetain([], 5) == [Retain(5)];
    assert [Retain(6)] + [Insert("!")] == [Retain(6), Insert("!")];
  }

  lemma Eval150()
    ensures TransformLoop([Retain(6), Insert("!")], [Insert(" new"), Retain(6)], [Retain(5)], [Retain(5)]) == TransformLoop([Retain(6), Insert("!")], [Retain(6)], [Retain(9)], [Retain(5), Insert(" new")])
  {
    assert [Retain(6), Insert("!")][1..] == [Insert("!")];
    assert [Insert(" new"), Retain(6)][1..] == [Retain(6)];
    assert AddRetain([Retain(5)], 4) == [Retain(9)];
    assert AddInsert([Retain(5)], " new") == [Retain(5), Insert(" new")];
  }

  lemma Eval151()
    ensures TransformLoop([Retain(6), Insert("!")], [Retain(6)], [Retain(9)], [Retain(5), Insert(" new")]) == TransformLoop([Insert("!")], [], [Retain(15)], [Retain(5), Insert(" new"), Retain(6)])
  {
    assert [Retain(6), Insert("!")][1..] == [Insert("!")];
    assert [Retain(6)][1..] == [];
    assert AddRetain([Retain(9)], 6) == [Retain(15)];
    assert AddRetain([Retain(5), Insert(" new")], 6) == [Retain(5), Insert(" new"), Retain(6)];
  }

  lemma Eval152()
    ensures TransformLoop([Insert("!")], [], [Retain(15)], [Retain(5), Insert(" new"), Retain(6)]) == TransformLoop([], [], [Retain(15), Insert("!")], [Retain(5), Insert(" new"), Retain(7)])
  {
    assert [Insert("!")][1..] == [];
    assert AddInsert([Retain(15)], "!") == [Retain(15), Insert("!")];
    assert AddRetain([Retain(5), Insert(" new"), Retain(6)], 1) == [Retain(5), Insert(" new"), Retain(7)];
  }

  lemma Eval153()
    ensures TransformLoop([], [], [Retain(15), Insert("!")], [Retain(5), Insert(" new"), Retain(7)]) == Some(([Retain(15), Insert("!")], [Retain(5), Insert(" new"), Retain(7)]))
  {
  }

  lemma Eval154()
    ensures Transform([Retain(11), Insert("!")], [Retain(5), Insert(" new"), Retain(6)]) == Some(([Retain(15), Insert("!")], [Retain(5), Insert(" new"), Retain(7)]))
  {
    Eval122();
    Eval136();
    Eval149();
    Eval150();
    Eval151();
    Eval152();
    Eval153();
  }

  lemma Eval155()
    ensures BaseLen([Retain(15), Insert("!")]) == 15
  {
    assert [Retain(15), Insert("!")][1..] == [Insert("!")];
    Eval121();
  }

  lemma Eval156()
    ensures Flush(Chars, "Hello new world", "", "!") == [TextModification(15, 0, "!")]
  {
  }

  lemma Eval157()
    requires BaseLen([]) == 0
    ensures ToModsLoop(Chars, [], "", "Hello new world", "", "!") == [TextModification(15, 0, "!")]
  {
    Eval156();
  }

  lemma Eval158()
    requires BaseLen([Insert("!")]) == 0
    ensures ToModsLoop(Chars, [Insert("!")], "", "Hello new world", "", "") == [TextModification(15, 0, "!")]
  {
    Eval121();
    Eval4();
    assert [Insert("!")][1..] == [];
    assert "" + "!" == "!";
    Eval157();
  }

  lemma Eval159()
    requires BaseLen([Retain(15), Insert("!")]) == 15
    ensures ToModsLoop(Chars, [Retain(15), Insert("!")], "Hello new world", "", "", "") == [TextModification(15, 0, "!")]
  {
    Eval155();
    Eval121();
    assert [Retain(15), Insert("!")][1..] == [Insert("!")];
    ToModsRetainUnfold(Chars, [Retain(15), Insert("!")], "Hello new world", "", "", "");
    assert "Hello new world"[..15] == "Hello new world";
    assert "Hello new world"[15..] == "";
    assert "" + "" == "";
    assert "" + "Hello new world" == "Hello new world";
    Eval128();
    Eval158();
    assert [] + [TextModification(15, 0, "!")] == [TextModification(15, 0, "!")];
  }

  lemma Eval160()
    ensures UpdateFor(Chars, [Retain(15), Insert("!")], "Hello new world") == Some(Update([TextModification(15, 0, "!")]))
  {
    Eval155();
    Eval159();
  }

  lemma Eval161()
    ensures RebaseIde(Chars, Awaiting([Retain(11), Insert("!")], None), [Retain(5), Insert(" new"), Retain(6)], "Hello new world") == Some(([Retain(5), Insert(" new"), Retain(7)], Awaiting([Retain(15), Insert("!")], None), [Ack, Update([TextModification(15, 0, "!")])]))
  {
    Eval148();
    Eval154();
    Eval160();
  }

  lemma Eval162()
    ensures BaseLen([Retain(7)]) == 7
  {
    assert [Retain(7)][1..] == [];
    Eval4();
  }

  lemma Eval163()
    ensures BaseLen([Insert(" new"), Retain(7)]) == 7
  {
    assert [Insert(" new"), Retain(7)][1..] == [Retain(7)];
    Eval162();
  }

  lemma Eval164()
    ensures BaseLen([Retain(5), Insert(" new"), Retain(7)]) == 12
  {
    assert [Retain(5), Insert(" new"), Retain(7)][1..] == [Insert(" new"), Retain(7)];
    Eval163();
  }

  lemma Eval165()
    ensures Apply([Retain(7)], " world!") == Some(" world!")
  {
    Eval162();
    Eval8();
    assert [Retain(7)][1..] == [];
    assert " world!"[..7] == " world!";
    assert " world!"[7..] == "";
    assert " world!" + "" == " world!";
  }

  lemma Eval166()
    ensures Apply([Insert(" new"), Retain(7)], " world!") == Some(" new world!")
  {
    Eval163();
    Eval165();
    assert [Insert(" new"), Retain(7)][1..] == [Retain(7)];
    assert " world!"[..0] == "";
    assert " new" + " world!" == " new world!";
  }

  lemma Eval167()
    ensures Apply([Retain(5), Insert(" new"), Retain(7)], "Hello world!") == Some("Hello new world!")
  {
    Eval164();
    Eval166();
    assert [Retain(5), Insert(" new"), Retain(7)][1..] == [Insert(" new"), Retain(7)];
    assert "Hello world!"[..5] == "Hello";
    assert "Hello world!"[5..] == " world!";
    assert "Hello" + " new world!" == "Hello new world!";
  }

  lemma Eval168()
    ensures Apply([Retain(15), Insert("!")], "Hello new world") == Some("Hello new world!")
  {
    Eval155();
    Eval123();
    assert [Retain(15), Insert("!")][1..] == [Insert("!")];
    assert "Hello new world"[..15] == "Hello new world";
    assert "Hello new world"[15..] == "";
    assert "Hello new world" + "!" == "Hello new world!";
  }

  lemma Eval169()
    ensures Build([Retain(5)]) == [Retain(5)]
  {
    assert [Retain(5)][..0] == [];
    Eval52();
    assert AddRetain([], 5) == [Retain(5)];
  }

  lemma Eval170()
    ensures Build([Retain(5), Insert(" new")]) == [Retain(5), Insert(" new")]
  {
    assert [Retain(5), Insert(" new")][..1] == [Retain(5)];
    Eval169();
    assert AddInsert([Retain(5)], " new") == [Retain(5), Insert(" new")];
  }

  lemma Eval171()
    ensures Build([Retain(5), Insert(" new"), Retain(7)]) == [Retain(5), Insert(" new"), Retain(7)]
  {
    assert [Retain(5), Insert(" new"), Retain(7)][..2] == [Retain(5), Insert(" new")];
    Eval170();
    assert AddRetain([Retain(5), Insert(" new")], 7) == [Retain(5), Insert(" new"), Retain(7)];
  }

  lemma Eval172()
    ensures RebaseIde(Chars, Synced, [Retain(5), Insert(" new"), Retain(6)], "Hello new world") == Some(([Retain(5), Insert(" new"), Retain(6)], Synced, [Ack]))
  {
  }

  lemma Eval173()
    ensures Rebase(Awaiting([Retain(5), Insert(" new"), Retain(6)], None), [Retain(11), Insert("!")]) == Some(([Retain(15), Insert("!")], Awaiting([Retain(5), Insert(" new"), Retain(7)], None)))
  {
    Eval154();
  }

  lemma Eval174()
    ensures Build([Retain(5), Insert(" new"), Retain(6)]) == [Retain(5), Insert(" new"), Retain(6)]
  {
    assert [Retain(5), Insert(" new"), Retain(6)][..2] == [Retain(5), Insert(" new")];
    Eval170();
    assert AddRetain([Retain(5), Insert(" new")], 6) == [Retain(5), Insert(" new"), Retain(6)];
  }

  lemma Eval175()
    ensures ModRange(Chars, "Hello new world", TextModification(6, 1, "N")) == Some((6, 7))
  {
  }

  lemma Eval176()
    ensures Replacement(6, 7, "N", 15) == [Retain(6), Insert("N"), Delete(1), Retain(8)]
  {
    assert AddRetain([], 6) == [Retain(6)];
    assert AddDelete([Retain(6)], 1) == [Retain(6), Delete(1)];
    assert [Retain(6), Delete(1)][..1] == [Retain(6)];
    assert AddInsert([Retain(6), Delete(1)], "N") == [Retain(6), Insert("N"), Delete(1)];
    assert AddRetain([Retain(6), Insert("N"), Delete(1)], 8) == [Retain(6), Insert("N"), Delete(1), Retain(8)];
  }

  lemma Eval177()
    ensures ModOp(Chars, "Hello new world", TextModification(6, 1, "N")) == Some([Retain(6), Insert("N"), Delete(1), Retain(8)])
  {
    Eval175();
    Eval176();
  }

  lemma Eval178()
    ensures BaseLen([Retain(8)]) == 8
  {
    assert [Retain(8)][1..] == [];
    Eval4();
  }

  lemma Eval179()
    ensures BaseLen([Delete(1), Retain(8)]) == 9
  {
    assert [Delete(1), Retain(8)][1..] == [Retain(8)];
    Eval178();
  }

  lemma Eval180()
    ensures BaseLen([Insert("N"), Delete(1), Retain(8)]) == 9
  {
    assert [Insert("N"), Delete(1), Retain(8)][1..] == [Delete(1), Retain(8)];
    Eval179();
  }

  lemma Eval181()
    ensures BaseLen([Retain(6), Insert("N"), Delete(1), Retain(8)]) == 15
  {
    assert [Retain(6), Insert("N"), Delete(1), Retain(8)][1..] == [Insert("N"), Delete(1), Retain(8)];
    Eval180();
  }

  lemma Eval182()
    ensures Apply([Retain(8)], "ew world") == Some("ew world")
  {
    Eval178();
    Eval8();
    assert [Retain(8)][1..] == [];
    assert "ew world"[..8] == "ew world";
    assert "ew world"[8..] == "";
    assert "ew world" + "" == "ew world";
  }

  lemma Eval183()
    ensures Apply([Delete(1), Retain(8)], "new world") == Some("ew world")
  {
    Eval179();
    Eval182();
    assert [Delete(1), Retain(8)][1..] == [Retain(8)];
    assert "new world"[..1] == "n";
    assert "new world"[1..] == "ew world";
    assert "" + "ew world" == "ew world";
  }

  lemma Eval184()
    ensures Apply([Insert("N"), Delete(1), Retain(8)], "new world") == Some("New world")
  {
    Eval180();
    Eval183();
    assert [Insert("N"), Delete(1), Retain(8)][1..] == [Delete(1), Retain(8)];
    assert "new world"[..0] == "";
    assert "N" + "ew world" == "New world";
  }

  lemma Eval185()
    ensures Apply([Retain(6), Insert("N"), Delete(1), Retain(8)], "Hello new world") == Some("Hello New world")
  {
    Eval181();
    Eval184();
    assert [Retain(6), Insert("N"), Delete(1), Retain(8)][1..] == [Insert("N"), Delete(1), Retain(8)];
    assert "Hello new world"[..6] == "Hello ";
    assert "Hello new world"[6..] == "new world";
    assert "Hello " + "New world" == "Hello New world";
  }

  lemma Eval186()
    ensures TargetLen([Retain(15)]) == 15
  {
    assert [Retain(15)][1..] == [];
    Eval12();
  }

  lemma Eval187()
    ensures ComposeLoop([Retain(15)], [Retain(6), Insert("N"), Delete(1), Retain(8)], []) == ComposeLoop([Retain(9)], [Insert("N"), Delete(1), Retain(8)], [Retain(6)])
  {
    assert [Retain(15)][1..] == [];
    assert [Retain(6), Insert("N"), Delete(1), Retain(8)][1..] == [Insert("N"), Delete(1), Retain(8)];
    assert AddRetain([], 6) == [Retain(6)];
  }

  lemma Eval188()
    ensures ComposeLoop([Retain(9)], [Insert("N"), Delete(1), Retain(8)], [Retain(6)]) == ComposeLoop([Retain(9)], [Delete(1), Retain(8)], [Retain(6), Insert("N")])
  {
    assert [Retain(9)][1..] == [];
    assert [Insert("N"), Delete(1), Retain(8)][1..] == [Delete(1), Retain(8)];
    assert AddInsert([Retain(6)], "N") == [Retain(6), Insert("N")];
  }

  lemma Eval189()
    ensures ComposeLoop([Retain(9)], [Delete(1), Retain(8)], [Retain(6), Insert("N")]) == ComposeLoop([Retain(8)], [Retain(8)], [Retain(6), Insert("N"), Delete(1)])
  {
    assert [Retain(9)][1..] == [];
    assert [Delete(1), Retain(8)][1..] == [Retain(8)];
    assert AddDelete([Retain(6), Insert("N")], 1) == [Retain(6), Insert("N"), Delete(1)];
  }

  lemma Eval190()
    ensures ComposeLoop([Retain(8)], [Retain(8)], [Retain(6), Insert("N"), Delete(1)]) == ComposeLoop([], [], [Retain(6), Insert("N"), Delete(1), Retain(8)])
  {
    assert [Retain(8)][1..] == [];
    assert AddRetain([Retain(6), Insert("N"), Delete(1)], 8) == [Retain(6), Insert("N"), Delete(1), Retain(8)];
  }

  lemma Eval191()
    ensures ComposeLoop([], [], [Retain(6), Insert("N"), Delete(1), Retain(8)]) == Some([Retain(6), Insert("N"), Delete(1), Retain(8)])
  {
  }

  lemma Eval192()
    ensures Compose([Retain(15)], [Retain(6), Insert("N"), Delete(1), Retain(8)]) == Some([Retain(6), Insert("N"), Delete(1), Retain(8)])
  {
    Eval186();
    Eval181();
    Eval187();
    Eval188();
    Eval189();
    Eval190();
    Eval191();
  }

  lemma Eval193()
    ensures FromModsLoop(Chars, "Hello new world", [TextModification(6, 1, "N"), TextModification(10, 1, "W")], [Retain(15)]) == FromModsLoop(Chars, "Hello New world", [TextModification(10, 1, "W")], [Retain(6), Insert("N"), Delete(1), Retain(8)])
  {
    assert [TextModification(6, 1, "N"), TextModification(10, 1, "W")][1..] == [TextModification(10, 1, "W")];
    Eval177();
    Eval185();
    Eval192();
  }

  lemma Eval194()
    ensures ModRange(Chars, "Hello New world", TextModification(10, 1, "W")) == Some((10, 11))
  {
  }

  lemma Eval195()
    ensures Replacement(10, 11, "W", 15) == [Retain(10), Insert("W"), Delete(1), Retain(4)]
  {
    assert AddRetain([], 10) == [Retain(10)];
    assert AddDelete([Retain(10)], 1) == [Retain(10), Delete(1)];
    assert [Retain(10), Delete(1)][..1] == [Retain(10)];
    assert AddInsert([Retain(10), Delete(1)], "W") == [Retain(10), Insert("W"), Delete(1)];
    assert AddRetain([Retain(10), Insert("W"), Delete(1)], 4) == [Retain(10), Insert("W"), Delete(1), Retain(4)];
  }

  lemma Eval196()
    ensures ModOp(Chars, "Hello New world", TextModification(10, 1, "W")) == Some([Retain(10), Insert("W"), Delete(1), Retain(4)])
  {
    Eval194();
    Eval195();
  }

  lemma Eval197()
    ensures BaseLen([Insert("W"), Delete(1), Retain(4)]) == 5
  {
    assert [Insert("W"), Delete(1), Retain(4)][1..] == [Delete(1), Retain(4)];
    Eval24();
  }

  lemma Eval198()
    ensures BaseLen([Retain(10), Insert("W"), Delete(1), Retain(4)]) == 15
  {
    assert [Retain(10), Insert("W"), Delete(1), Retain(4)][1..] == [Insert("W"), Delete(1), Retain(4)];
    Eval197();
  }

  lemma Eval199()
    ensures Apply([Retain(4)], "orld") == Some("orld")
  {
    Eval23();
    Eval8();
    assert [Retain(4)][1..] == [];
    assert "orld"[..4] == "orld";
    assert "orld"[4..] == "";
    assert "orld" + "" == "orld";
  }

  lemma Eval200()
    ensures Apply([Delete(1), Retain(4)], "world") == Some("orld")
  {
    Eval24();
    Eval199();
    assert [Delete(1), Retain(4)][1..] == [Retain(4)];
    assert "world"[..1] == "w";
    assert "world"[1..] == "orld";
    assert "" + "orld" == "orld";
  }

  lemma Eval201()
    ensures Apply([Insert("W"), Delete(1), Retain(4)], "world") == Some("World")
  {
    Eval197();
    Eval200();
    assert [Insert("W"), Delete(1), Retain(4)][1..] == [Delete(1), Retain(4)];
    assert "world"[..0] == "";
    assert "W" + "orld" == "World";
  }

  lemma Eval202()
    ensures Apply([Retain(10), Insert("W"), Delete(1), Retain(4)], "Hello New world") == Some("Hello New World")
  {
    Eval198();
    Eval201();
    assert [Retain(10), Insert("W"), Delete(1), Retain(4)][1..] == [Insert("W"), Delete(1), Retain(4)];
    assert "Hello New world"[..10] == "Hello New ";
    assert "Hello New world"[10..] == "world";
    assert "Hello New " + "World" == "Hello New World";
  }

  lemma Eval203()
    ensures TargetLen([Retain(8)]) == 8
  {
    assert [Retain(8)][1..] == [];
    Eval12();
  }

  lemma Eval204()
    ensures TargetLen([Delete(1), Retain(8)]) == 8
  {
    assert [Delete(1), Retain(8)][1..] == [Retain(8)];
    Eval203();
  }

  lemma Eval205()
    ensures TargetLen([Insert("N"), Delete(1), Retain(8)]) == 9
  {
    assert [Insert("N"), Delete(1), Retain(8)][1..] == [Delete(1), Retain(8)];
    Eval204();
  }

  lemma Eval206()
    ensures TargetLen([Retain(6), Insert("N"), Delete(1), Retain(8)]) == 15
  {
    assert [Retain(6), Insert("N"), Delete(1), Retain(8)][1..] == [Insert("N"), Delete(1), Retain(8)];
    Eval205();
  }

  lemma Eval207()
    ensures ComposeLoop([Retain(6), Insert("N"), Delete(1), Retain(8)], [Retain(10), Insert("W"), Delete(1), Retain(4)], []) == ComposeLoop([Insert("N"), Delete(1), Retain(8)], [Retain(4), Insert("W"), Delete(1), Retain(4)], [Retain(6)])
  {
    assert [Retain(6), Insert("N"), Delete(1), Retain(8)][1..] == [Insert("N"), Delete(1), Retain(8)];
    assert [Retain(10), Insert("W"), Delete(1), Retain(4)][1..] == [Insert("W"), Delete(1), Retain(4)];
    assert AddRetain([], 6) == [Retain(6)];
  }

  lemma Eval208()
    ensures ComposeLoop([Insert("N"), Delete(1), Retain(8)], [Retain(4), Insert("W"), Delete(1), Retain(4)], [Retain(6)]) == ComposeLoop([Delete(1), Retain(8)], [Retain(3), Insert("W"), Delete(1), Retain(4)], [Retain(6), Insert("N")])
  {
    assert [Insert("N"), Delete(1), Retain(8)][1..] == [Delete(1), Retain(8)];
    assert [Retain(4), Insert("W"), Delete(1), Retain(4)][1..] == [Insert("W"), Delete(1), Retain(4)];
    assert AddInsert([Retain(6)], "N") == [Retain(6), Insert("N")];
  }

  lemma Eval209()
    ensures ComposeLoop([Delete(1), Retain(8)], [Retain(3), Insert("W"), Delete(1), Retain(4)], [Retain(6), Insert("N")]) == ComposeLoop([Retain(8)], [Retain(3), Insert("W"), Delete(1), Retain(4)], [Retain(6), Insert("N"), Delete(1)])
  {
    assert [Delete(1), Retain(8)][1..] == [Retain(8)];
    assert [Retain(3), Insert("W"), Delete(1), Retain(4)][1..] == [Insert("W"), Delete(1), Retain(4)];
    assert AddDelete([Retain(6), Insert("N")], 1) == [Retain(6), Insert("N"), Delete(1)];
  }

  lemma Eval210()
    ensures ComposeLoop([Retain(8)], [Retain(3), Insert("W"), Delete(1), Retain(4)], [Retain(6), Insert("N"), Delete(1)]) == ComposeLoop([Retain(5)], [Insert("W"), Delete(1), Retain(4)], [Retain(6), Insert("N"), Delete(1), Retain(3)])
  {
    assert [Retain(8)][1..] == [];
    assert [Retain(3), Insert("W"), Delete(1), Retain(4)][1..] == [Insert("W"), Delete(1), Retain(4)];
    assert AddRetain([Retain(6), Insert("N"), Delete(1)], 3) == [Retain(6), Insert("N"), Delete(1), Retain(3)];
  }

  lemma Eval211()
    ensures ComposeLoop([Retain(5)], [Insert("W"), Delete(1), Retain(4)], [Retain(6), Insert("N"), Delete(1), Retain(3)]) == ComposeLoop([Retain(5)], [Delete(1), Retain(4)], [Retain(6), Insert("N"), Delete(1), Retain(3), Insert("W")])
  {
    assert [Retain(5)][1..] == [];
    assert [Insert("W"), Delete(1), Retain(4)][1..] == [Delete(1), Retain(4)];
    assert AddInsert([Retain(6), Insert("N"), Delete(1), Retain(3)], "W") == [Retain(6), Insert("N"), Delete(1), Retain(3), Insert("W")];
  }

  lemma Eval212()
    ensures ComposeLoop([Retain(5)], [Delete(1), Retain(4)], [Retain(6), Insert("N"), Delete(1), Retain(3), Insert("W")]) == ComposeLoop([Retain(4)], [Retain(4)], [Retain(6), Insert("N"), Delete(1), Retain(3), Insert("W"), Delete(1)])
  {
    assert [Retain(5)][1..] == [];
    assert [Delete(1), Retain(4)][1..] == [Retain(4)];
    assert AddDelete([Retain(6), Insert("N"), Delete(1), Retain(3), Insert("W")], 1) == [Retain(6), Insert("N"), Delete(1), Retain(3), Insert("W"), Delete(1)];
  }

  lemma Eval213()
    ensures ComposeLoop([Retain(4)], [Retain(4)], [Retain(6), Insert("N"), Delete(1), Retain(3), Insert("W"), Delete(1)]) == ComposeLoop([], [], [Retain(6), Insert("N"), Delete(1), Retain(3), Insert("W"), Delete(1), Retain(4)])
  {
    assert [Retain(4)][1..] == [];
    assert AddRetain([Retain(6), Insert("N"), Delete(1), Retain(3), Insert("W"), Delete(1)], 4) == [Retain(6), Insert("N"), Delete(1), Retain(3), Insert("W"), Delete(1), Retain(4)];
  }

  lemma Eval214()
    ensures ComposeLoop([], [], [Retain(6), Insert("N"), Delete(1), Retain(3), Insert("W"), Delete(1), Retain(4)]) == Some([Retain(6), Insert("N"), Delete(1), Retain(3), Insert("W"), Delete(1), Retain(4)])
  {
  }

  lemma Eval215()
    ensures Compose([Retain(6), Insert("N"), Delete(1), Retain(8)], [Retain(10), Insert("W"), Delete(1), Retain(4)]) == Some([Retain(6), Insert("N"), Delete(1), Retain(3), Insert("W"), Delete(1), Retain(4)])
  {
    Eval206();
    Eval198();
    Eval207();
    Eval208();
    Eval209();
    Eval210();
    Eval211();
    Eval212();
    Eval213();
    Eval214();
  }

  lemma Eval216()
    ensures FromModsLoop(Chars, "Hello New world", [TextModification(10, 1, "W")], [Retain(6), Insert("N"), Delete(1), Retain(8)]) == FromModsLoop(Chars, "Hello New World", [], [Retain(6), Insert("N"), Delete(1), Retain(3), Insert("W"), Delete(1), Retain(4)])
  {
    assert [TextModification(10, 1, "W")][1..] == [];
    Eval196();
    Eval202();
    Eval215();
  }

  lemma Eval217()
    ensures FromModsLoop(Chars, "Hello New World", [], [Retain(6), Insert("N"), Delete(1), Retain(3), Insert("W"), Delete(1), Retain(4)]) == Some([Retain(6), Insert("N"), Delete(1), Retain(3), Insert("W"), Delete(1), Retain(4)])
  {
  }

  lemma Eval218()
    ensures FromModifications(Chars, "Hello new world", [TextModification(6, 1, "N"), TextModification(10, 1, "W")]) == Some([Retain(6), Insert("N"), Delete(1), Retain(3), Insert("W"), Delete(1), Retain(4)])
  {
    assert AddRetain([], 15) == [Retain(15)];
    assert Identity("Hello new world") == [Retain(15)];
    Eval193();
    Eval216();
    Eval217();
  }

  lemma Eval219()
    ensures BaseLen([Retain(3), Insert("W"), Delete(1), Retain(4)]) == 8
  {
    assert [Retain(3), Insert("W"), Delete(1), Retain(4)][1..] == [Insert("W"), Delete(1), Retain(4)];
    Eval197();
  }

  lemma Eval220()
    ensures BaseLen([Delete(1), Retain(3), Insert("W"), Delete(1), Retain(4)]) == 9
  {
    assert [Delete(1), Retain(3), Insert("W"), Delete(1), Retain(4)][1..] == [Retain(3), Insert("W"), Delete(1), Retain(4)];
    Eval219();
  }

  lemma Eval221()
    ensures BaseLen([Insert("N"), Delete(1), Retain(3), Insert("W"), Delete(1), Retain(4)]) == 9
  {
    assert [Insert("N"), Delete(1), Retain(3), Insert("W"), Delete(1), Retain(4)][1..] == [Delete(1), Retain(3), Insert("W"), Delete(1), Retain(4)];
    Eval220();
  }

  lemma Eval222()
    ensures BaseLen([Retain(6), Insert("N"), Delete(1), Retain(3), Insert("W"), Delete(1), Retain(4)]) == 15
  {
    assert [Retain(6), Insert("N"), Delete(1), Retain(3), Insert("W"), Delete(1), Retain(4)][1..] == [Insert("N"), Delete(1), Retain(3), Insert("W"), Delete(1), Retain(4)];
    Eval221();
  }

  lemma Eval223()
    ensures Apply([Retain(3), Insert("W"), Delete(1), Retain(4)], "ew world") == Some("ew World")
  {
    Eval219();
    Eval201();
    assert [Retain(3), Insert("W"), Delete(1), Retain(4)][1..] == [Insert("W"), Delete(1), Retain(4)];
    assert "ew world"[..3] == "ew ";
    assert "ew world"[3..] == "world";
    assert "ew " + "World" == "ew World";
  }

  lemma Eval224()
    ensures Apply([Delete(1), Retain(3), Insert("W"), Delete(1), Retain(4)], "new world") == Some("ew World")
  {
    Eval220();
    Eval223();
    assert [Delete(1), Retain(3), Insert("W"), Delete(1), Retain(4)][1..] == [Retain(3), Insert("W"), Delete(1), Retain(4)];
    assert "new world"[..1] == "n";
    assert "new world"[1..] == "ew world";
    assert "" + "ew World" == "ew World";
  }

  lemma Eval225()
    ensures Apply([Insert("N"), Delete(1), Retain(3), Insert("W"), Delete(1), Retain(4)], "new world") == Some("New World")
  {
    Eval221();
    Eval224();
    assert [Insert("N"), Delete(1), Retain(3), Insert("W"), Delete(1), Retain(4)][1..] == [Delete(1), Retain(3), Insert("W"), Delete(1), Retain(4)];
    assert "new world"[..0] == "";
    assert "N" + "ew World" == "New World";
  }

  lemma Eval226()
    ensures Apply([Retain(6), Insert("N"), Delete(1), Retain(3), Insert("W"), Delete(1), Retain(4)], "Hello new world") == Some("Hello New World")
  {
    Eval222();
    Eval225();
    assert [Retain(6), Insert("N"), Delete(1), Retain(3), Insert("W"), Delete(1), Retain(4)][1..] == [Insert("N"), Delete(1), Retain(3), Insert("W"), Delete(1), Retain(4)];
    assert "Hello new world"[..6] == "Hello ";
    assert "Hello new world"[6..] == "new world";
    assert "Hello " + "New World" == "Hello New World";
  }

  lemma Eval227()
    ensures Outstanding([Retain(15), Insert("!")], None) == Some([Retain(15), Insert("!")])
  {
  }

  lemma Eval228()
    ensures TransformLoop([Retain(15), Insert("!")], [Retain(6), Insert("N"), Delete(1), Retain(3), Insert("W"), Delete(1), Retain(4)], [], []) == TransformLoop([Retain(9), Insert("!")], [Insert("N"), Delete(1), Retain(3), Insert("W"), Delete(1), Retain(4)], [Retain(6)], [Retain(6)])
  {
    assert [Retain(15), Insert("!")][1..] == [Insert("!")];
    assert [Retain(6), Insert("N"), Delete(1), Retain(3), Insert("W"), Delete(1), Retain(4)][1..] == [Insert("N"), Delete(1), Retain(3), Insert("W"), Delete(1), Retain(4)];
    assert AddRetain([], 6) == [Retain(6)];
    assert [Retain(9)] + [Insert("!")] == [Retain(9), Insert("!")];
  }

  lemma Eval229()
    ensures TransformLoop([Retain(9), Insert("!")], [Insert("N"), Delete(1), Retain(3), Insert("W"), Delete(1), Retain(4)], [Retain(6)], [Retain(6)]) == TransformLoop([Retain(9), Insert("!")], [Delete(1), Retain(3), Insert("W"), Delete(1), Retain(4)], [Retain(7)], [Retain(6), Insert("N")])
  {
    assert [Retain(9), Insert("!")][1..] == [Insert("!")];
    assert [Insert("N"), Delete(1), Retain(3), Insert("W"), Delete(1), Retain(4)][1..] == [Delete(1), Retain(3), Insert("W"), Delete(1), Retain(4)];
    assert AddRetain([Retain(6)], 1) == [Retain(7)];
    assert AddInsert([Retain(6)], "N") == [Retain(6), Insert("N")];
  }

  lemma Eval230()
    ensures TransformLoop([Retain(9), Insert("!")], [Delete(1), Retain(3), Insert("W"), Delete(1), Retain(4)], [Retain(7)], [Retain(6), Insert("N")]) == TransformLoop([Retain(8), Insert("!")], [Retain(3), Insert("W"), Delete(1), Retain(4)], [Retain(7)], [Retain(6), Insert("N"), Delete(1)])
  {
    assert [Retain(9), Insert("!")][1..] == [Insert("!")];
    assert [Delete(1), Retain(3), Insert("W"), Delete(1), Retain(4)][1..] == [Retain(3), Insert("W"), Delete(1), Retain(4)];
    assert [Retain(8)] + [Insert("!")] == [Retain(8), Insert("!")];
    assert AddDelete([Retain(6), Insert("N")], 1) == [Retain(6), Insert("N"), Delete(1)];
  }

  lemma Eval231()
    ensures TransformLoop([Retain(8), Insert("!")], [Retain(3), Insert("W"), Delete(1), Retain(4)], [Retain(7)], [Retain(6), Insert("N"), Delete(1)]) == TransformLoop([Retain(5), Insert("!")], [Insert("W"), Delete(1), Retain(4)], [Retain(10)], [Retain(6), Insert("N"), Delete(1), Retain(3)])
  {
    assert [Retain(8), Insert("!")][1..] == [Insert("!")];
    assert [Retain(3), Insert("W"), Delete(1), Retain(4)][1..] == [Insert("W"), Delete(1), Retain(4)];
    assert AddRetain([Retain(7)], 3) == [Retain(10)];
    assert [Retain(5)] + [Insert("!")] == [Retain(5), Insert("!")];
    assert AddRetain([Retain(6), Insert("N"), Delete(1)], 3) == [Retain(6), Insert("N"), Delete(1), Retain(3)];
  }

  lemma Eval232()
    ensures TransformLoop([Retain(5), Insert("!")], [Insert("W"), Delete(1), Retain(4)], [Retain(10)], [Retain(6), Insert("N"), Delete(1), Retain(3)]) == TransformLoop([Retain(5), Insert("!")], [Delete(1), Retain(4)], [Retain(11)], [Retain(6), Insert("N"), Delete(1), Retain(3), Insert("W")])
  {
    assert [Retain(5), Insert("!")][1..] == [Insert("!")];
    assert [Insert("W"), Delete(1), Retain(4)][1..] == [Delete(1), Retain(4)];
    assert AddRetain([Retain(10)], 1) == [Retain(11)];
    assert AddInsert([Retain(6), Insert("N"), Delete(1), Retain(3)], "W") == [Retain(6), Insert("N"), Delete(1), Retain(3), Insert("W")];
  }

  lemma Eval233()
    ensures TransformLoop([Retain(5), Insert("!")], [Delete(1), Retain(4)], [Retain(11)], [Retain(6), Insert("N"), Delete(1), Retain(3), Insert("W")]) == TransformLoop([Retain(4), Insert("!")], [Retain(4)], [Retain(11)], [Retain(6), Insert("N"), Delete(1), Retain(3), Insert("W"), Delete(1)])
  {
    assert [Retain(5), Insert("!")][1..] == [Insert("!")];
    assert [Delete(1), Retain(4)][1..] == [Retain(4)];
    assert [Retain(4)] + [Insert("!")] == [Retain(4), Insert("!")];
    assert AddDelete([Retain(6), Insert("N"), Delete(1), Retain(3), Insert("W")], 1) == [Retain(6), Insert("N"), Delete(1), Retain(3), Insert("W"), Delete(1)];
  }

  lemma Eval234()
    ensures TransformLoop([Retain(4), Insert("!")], [Retain(4)], [Retain(11)], [Retain(6), Insert("N"), Delete(1), Retain(3), Insert("W"), Delete(1)]) == TransformLoop([Insert("!")], [], [Retain(15)], [Retain(6), Insert("N"), Delete(1), Retain(3), Insert("W"), Delete(1), Retain(4)])
  {
    assert [Retain(4), Insert("!")][1..] == [Insert("!")];
    assert [Retain(4)][1..] == [];
    assert AddRetain([Retain(11)], 4) == [Retain(15)];
    assert AddRetain([Retain(6), Insert("N"), Delete(1), Retain(3), Insert("W"), Delete(1)], 4) == [Retain(6), Insert("N"), Delete(1), Retain(3), Insert("W"), Delete(1), Retain(4)];
  }

  lemma Eval235()
    ensures TransformLoop([Insert("!")], [], [Retain(15)], [Retain(6), Insert("N"), Delete(1), Retain(3), Insert("W"), Delete(1), Retain(4)]) == TransformLoop([], [], [Retain(15), Insert("!")], [Retain(6), Insert("N"), Delete(1), Retain(3), Insert("W"), Delete(1), Retain(5)])
  {
    assert [Insert("!")][1..] == [];
    assert AddInsert([Retain(15)], "!") == [Retain(15), Insert("!")];
    assert AddRetain([Retain(6), Insert("N"), Delete(1), Retain(3), Insert("W"), Delete(1), Retain(4)], 1) == [Retain(6), Insert("N"), Delete(1), Retain(3), Insert("W"), Delete(1), Retain(5)];
  }

  lemma Eval236()
    ensures TransformLoop([], [], [Retain(15), Insert("!")], [Retain(6), Insert("N"), Delete(1), Retain(3), Insert("W"), Delete(1), Retain(5)]) == Some(([Retain(15), Insert("!")], [Retain(6), Insert("N"), Delete(1), Retain(3), Insert("W"), Delete(1), Retain(5)]))
  {
  }

  lemma Eval237()
    ensures Transform([Retain(15), Insert("!")], [Retain(6), Insert("N"), Delete(1), Retain(3), Insert("W"), Delete(1), Retain(4)]) == Some(([Retain(15), Insert("!")], [Retain(6), Insert("N"), Delete(1), Retain(3), Insert("W"), Delete(1), Retain(5)]))
  {
    Eval155();
    Eval222();
    Eval228();
    Eval229();
    Eval230();
    Eval231();
    Eval232();
    Eval233();
    Eval234();
    Eval235();
    Eval236();
  }

  lemma Eval238()
    ensures Flush(Chars, "Hello New World", "", "!") == [TextModification(15, 0, "!")]
  {
  }

  lemma Eval239()
    requires BaseLen([]) == 0
    ensures ToModsLoop(Chars, [], "", "Hello New World", "", "!") == [TextModification(15, 0, "!")]
  {
    Eval238();
  }

  lemma Eval240()
    requires BaseLen([Insert("!")]) == 0
    ensures ToModsLoop(Chars, [Insert("!")], "", "Hello New World", "", "") == [TextModification(15, 0, "!")]
  {
    Eval121();
    Eval4();
    assert [Insert("!")][1..] == [];
    assert "" + "!" == "!";
    Eval239();
  }

  lemma Eval241()
    requires BaseLen([Retain(15), Insert("!")]) == 15
    ensures ToModsLoop(Chars, [Retain(15), Insert("!")], "Hello New World", "", "", "") == [TextModification(15, 0, "!")]
  {
    Eval155();
    Eval121();
    assert [Retain(15), Insert("!")][1..] == [Insert("!")];
    ToModsRetainUnfold(Chars, [Retain(15), Insert("!")], "Hello New World", "", "", "");
    assert "Hello New World"[..15] == "Hello New World";
    assert "Hello New World"[15..] == "";
    assert "" + "" == "";
    assert "" + "Hello New World" == "Hello New World";
    Eval128();
    Eval240();
    assert [] + [TextModification(15, 0, "!")] == [TextModification(15, 0, "!")];
  }

  lemma Eval242()
    ensures UpdateFor(Chars, [Retain(15), Insert("!")], "Hello New World") == Some(Update([TextModification(15, 0, "!")]))
  {
    Eval155();
    Eval241();
  }

  lemma Eval243()
    ensures RebaseIde(Chars, Awaiting([Retain(15), Insert("!")], None), [Retain(6), Insert("N"), Delete(1), Retain(3), Insert("W"), Delete(1), Retain(4)], "Hello New World") == Some(([Retain(6), Insert("N"), Delete(1), Retain(3), Insert("W"), Delete(1), Retain(5)], Awaiting([Retain(15), Insert("!")], None), [Ack, Update([TextModification(15, 0, "!")])]))
  {
    Eval227();
    Eval237();
    Eval242();
  }

  lemma Eval244()
    ensures BaseLen([Retain(5)]) == 5
  {
    assert [Retain(5)][1..] == [];
    Eval4();
  }

  lemma Eval245()
    ensures BaseLen([Delete(1), Retain(5)]) == 6
  {
    assert [Delete(1), Retain(5)][1..] == [Retain(5)];
    Eval244();
  }

  lemma Eval246()
    ensures BaseLen([Insert("W"), Delete(1), Retain(5)]) == 6
  {
    assert [Insert("W"), Delete(1), Retain(5)][1..] == [Delete(1), Retain(5)];
    Eval245();
  }

  lemma Eval247()
    ensures BaseLen([Retain(3), Insert("W"), Delete(1), Retain(5)]) == 9
  {
    assert [Retain(3), Insert("W"), Delete(1), Retain(5)][1..] == [Insert("W"), Delete(1), Retain(5)];
    Eval246();
  }

  lemma Eval248()
    ensures BaseLen([Delete(1), Retain(3), Insert("W"), Delete(1), Retain(5)]) == 10
  {
    assert [Delete(1), Retain(3), Insert("W"), Delete(1), Retain(5)][1..] == [Retain(3), Insert("W"), Delete(1), Retain(5)];
    Eval247();
  }

  lemma Eval249()
    ensures BaseLen([Insert("N"), Delete(1), Retain(3), Insert("W"), Delete(1), Retain(5)]) == 10
  {
    assert [Insert("N"), Delete(1), Retain(3), Insert("W"), Delete(1), Retain(5)][1..] == [Delete(1), Retain(3), Insert("W"), Delete(1), Retain(5)];
    Eval248();
  }

  lemma Eval250()
    ensures BaseLen([Retain(6), Insert("N"), Delete(1), Retain(3), Insert("W"), Delete(1), Retain(5)]) == 16
  {
    assert [Retain(6), Insert("N"), Delete(1), Retain(3), Insert("W"), Delete(1), Retain(5)][1..] == [Insert("N"), Delete(1), Retain(3), Insert("W"), Delete(1), Retain(5)];
    Eval249();
  }

  lemma Eval251()
    ensures Apply([Retain(5)], "orld!") == Some("orld!")
  {
    Eval244();
    Eval8();
    assert [Retain(5)][1..] == [];
    assert "orld!"[..5] == "orld!";
    assert "orld!"[5..] == "";
    assert "orld!" + "" == "orld!";
  }

  lemma Eval252()
    ensures Apply([Delete(1), Retain(5)], "world!") == Some("orld!")
  {
    Eval245();
    Eval251();
    assert [Delete(1), Retain(5)][1..] == [Retain(5)];
    assert "world!"[..1] == "w";
    assert "world!"[1..] == "orld!";
    assert "" + "orld!" == "orld!";
  }

  lemma Eval253()
    ensures Apply([Insert("W"), Delete(1), Retain(5)], "world!") == Some("World!")
  {
    Eval246();
    Eval252();
    assert [Insert("W"), Delete(1), Retain(5)][1..] == [Delete(1), Retain(5)];
    assert "world!"[..0] == "";
    assert "W" + "orld!" == "World!";
  }

  lemma Eval254()
    ensures Apply([Retain(3), Insert("W"), Delete(1), Retain(5)], "ew world!") == Some("ew World!")
  {
    Eval247();
    Eval253();
    assert [Retain(3), Insert("W"), Delete(1), Retain(5)][1..] == [Insert("W"), Delete(1), Retain(5)];
    assert "ew world!"[..3] == "ew ";
    assert "ew world!"[3..] == "world!";
    assert "ew " + "World!" == "ew World!";
  }

  lemma Eval255()
    ensures Apply([Delete(1), Retain(3), Insert("W"), Delete(1), Retain(5)], "new world!") == Some("ew World!")
  {
    Eval248();
    Eval254();
    assert [Delete(1), Retain(3), Insert("W"), Delete(1), Retain(5)][1..] == [Retain(3), Insert("W"), Delete(1), Retain(5)];
    assert "new world!"[..1] == "n";
    assert "new world!"[1..] == "ew world!";
    assert "" + "ew World!" == "ew World!";
  }

  lemma Eval256()
    ensures Apply([Insert("N"), Delete(1), Retain(3), Insert("W"), Delete(1), Retain(5)], "new world!") == Some("New World!")
  {
    Eval249();
    Eval255();
    assert [Insert("N"), Delete(1), Retain(3), Insert("W"), Delete(1), Retain(5)][1..] == [Delete(1), Retain(3), Insert("W"), Delete(1), Retain(5)];
    assert "new world!"[..0] == "";
    assert "N" + "ew World!" == "New World!";
  }

  lemma Eval257()
    ensures Apply([Retain(6), Insert("N"), Delete(1), Retain(3), Insert("W"), Delete(1), Retain(5)], "Hello new world!") == Some("Hello New World!")
  {
    Eval250();
    Eval256();
    assert [Retain(6), Insert("N"), Delete(1), Retain(3), Insert("W"), Delete(1), Retain(5)][1..] == [Insert("N"), Delete(1), Retain(3), Insert("W"), Delete(1), Retain(5)];
    assert "Hello new world!"[..6] == "Hello ";
    assert "Hello new world!"[6..] == "new world!";
    assert "Hello " + "New World!" == "Hello New World!";
  }

  lemma Eval258()
    ensures Enqueue(None, [Retain(6), Insert("N"), Delete(1), Retain(3), Insert("W"), Delete(1), Retain(5)]) == Some([Retain(6), Insert("N"), Delete(1), Retain(3), Insert("W"), Delete(1), Retain(5)])
  {
  }

  lemma Eval259()
    ensures Build([Retain(12)]) == [Retain(12)]
  {
    assert [Retain(12)][..0] == [];
    Eval52();
    assert AddRetain([], 12) == [Retain(12)];
  }

  lemma Eval260()
    ensures Build([Retain(12), Insert(" :)")]) == [Retain(12), Insert(" :)")]
  {
    assert [Retain(12), Insert(" :)")][..1] == [Retain(12)];
    Eval259();
    assert AddInsert([Retain(12)], " :)") == [Retain(12), Insert(" :)")];
  }

  lemma Eval261()
    ensures BaseLen([Insert(" :)")]) == 0
  {
    assert [Insert(" :)")][1..] == [];
    Eval4();
  }

  lemma Eval262()
    ensures BaseLen([Retain(12), Insert(" :)")]) == 12
  {
    assert [Retain(12), Insert(" :)")][1..] == [Insert(" :)")];
    Eval261();
  }

  lemma Eval263()
    ensures TransformLoop([Retain(12), Insert(" :)")], [Retain(5), Insert(" new"), Retain(7)], [], []) == TransformLoop([Retain(7), Insert(" :)")], [Insert(" new"), Retain(7)], [Retain(5)], [Retain(5)])
  {
    assert [Retain(12), Insert(" :)")][1..] == [Insert(" :)")];
    assert [Retain(5), Insert(" new"), Retain(7)][1..] == [Insert(" new"), Retain(7)];
    assert AddRetain([], 5) == [Retain(5)];
    assert [Retain(7)] + [Insert(" :)")] == [Retain(7), Insert(" :)")];
  }

  lemma Eval264()
    ensures TransformLoop([Retain(7), Insert(" :)")], [Insert(" new"), Retain(7)], [Retain(5)], [Retain(5)]) == TransformLoop([Retain(7), Insert(" :)")], [Retain(7)], [Retain(9)], [Retain(5), Insert(" new")])
  {
    assert [Retain(7), Insert(" :)")][1..] == [Insert(" :)")];
    assert [Insert(" new"), Retain(7)][1..] == [Retain(7)];
    assert AddRetain([Retain(5)], 4) == [Retain(9)];
    assert AddInsert([Retain(5)], " new") == [Retain(5), Insert(" new")];
  }

  lemma Eval265()
    ensures TransformLoop([Retain(7), Insert(" :)")], [Retain(7)], [Retain(9)], [Retain(5), Insert(" new")]) == TransformLoop([Insert(" :)")], [], [Retain(16)], [Retain(5), Insert(" new"), Retain(7)])
  {
    assert [Retain(7), Insert(" :)")][1..] == [Insert(" :)")];
    assert [Retain(7)][1..] == [];
    assert AddRetain([Retain(9)], 7) == [Retain(16)];
    assert AddRetain([Retain(5), Insert(" new")], 7) == [Retain(5), Insert(" new"), Retain(7)];
  }

  lemma Eval266()
    ensures TransformLoop([Insert(" :)")], [], [Retain(16)], [Retain(5), Insert(" new"), Retain(7)]) == TransformLoop([], [], [Retain(16), Insert(" :)")], [Retain(5), Insert(" new"), Retain(10)])
  {
    assert [Insert(" :)")][1..] == [];
    assert AddInsert([Retain(16)], " :)") == [Retain(16), Insert(" :)")];
    assert AddRetain([Retain(5), Insert(" new"), Retain(7)], 3) == [Retain(5), Insert(" new"), Retain(10)];
  }

  lemma Eval267()
    ensures TransformLoop([], [], [Retain(16), Insert(" :)")], [Retain(5), Insert(" new"), Retain(10)]) == Some(([Retain(16), Insert(" :)")], [Retain(5), Insert(" new"), Retain(10)]))
  {
  }

  lemma Eval268()
    ensures Transform([Retain(12), Insert(" :)")], [Retain(5), Insert(" new"), Retain(7)]) == Some(([Retain(16), Insert(" :)")], [Retain(5), Insert(" new"), Retain(10)]))
  {
    Eval262();
    Eval164();
    Eval263();
    Eval264();
    Eval265();
    Eval266();
    Eval267();
  }

  lemma Eval269()
    ensures BaseLen([Retain(16), Insert(" :)")]) == 16
  {
    assert [Retain(16), Insert(" :)")][1..] == [Insert(" :)")];
    Eval261();
  }

  lemma Eval270()
    ensures TransformLoop([Retain(16), Insert(" :)")], [Retain(6), Insert("N"), Delete(1), Retain(3), Insert("W"), Delete(1), Retain(5)], [], []) == TransformLoop([Retain(10), Insert(" :)")], [Insert("N"), Delete(1), Retain(3), Insert("W"), Delete(1), Retain(5)], [Retain(6)], [Retain(6)])
  {
    assert [Retain(16), Insert(" :)")][1..] == [Insert(" :)")];
    assert [Retain(6), Insert("N"), Delete(1), Retain(3), Insert("W"), Delete(1), Retain(5)][1..] == [Insert("N"), Delete(1), Retain(3), Insert("W"), Delete(1), Retain(5)];
    assert AddRetain([], 6) == [Retain(6)];
    assert [Retain(10)] + [Insert(" :)")] == [Retain(10), Insert(" :)")];
  }

  lemma Eval271()
    ensures TransformLoop([Retain(10), Insert(" :)")], [Insert("N"), Delete(1), Retain(3), Insert("W"), Delete(1), Retain(5)], [Retain(6)], [Retain(6)]) == TransformLoop([Retain(10), Insert(" :)")], [Delete(1), Retain(3), Insert("W"), Delete(1), Retain(5)], [Retain(7)], [Retain(6), Insert("N")])
  {
    assert [Retain(10), Insert(" :)")][1..] == [Insert(" :)")];
    assert [Insert("N"), Delete(1), Retain(3), Insert("W"), Delete(1), Retain(5)][1..] == [Delete(1), Retain(3), Insert("W"), Delete(1), Retain(5)];
    assert AddRetain([Retain(6)], 1) == [Retain(7)];
    assert AddInsert([Retain(6)], "N") == [Retain(6), Insert("N")];
  }

  lemma Eval272()
    ensures TransformLoop([Retain(10), Insert(" :)")], [Delete(1), Retain(3), Insert("W"), Delete(1), Retain(5)], [Retain(7)], [Retain(6), Insert("N")]) == TransformLoop([Retain(9), Insert(" :)")], [Retain(3), Insert("W"), Delete(1), Retain(5)], [Retain(7)], [Retain(6), Insert("N"), Delete(1)])
  {
    assert [Retain(10), Insert(" :)")][1..] == [Insert(" :)")];
    assert [Delete(1), Retain(3), Insert("W"), Delete(1), Retain(5)][1..] == [Retain(3), Insert("W"), Delete(1), Retain(5)];
    assert [Retain(9)] + [Insert(" :)")] == [Retain(9), Insert(" :)")];
    assert AddDelete([Retain(6), Insert("N")], 1) == [Retain(6), Insert("N"), Delete(1)];
  }

  lemma Eval273()
    ensures TransformLoop([Retain(9), Insert(" :)")], [Retain(3), Insert("W"), Delete(1), Retain(5)], [Retain(7)], [Retain(6), Insert("N"), Delete(1)]) == TransformLoop([Retain(6), Insert(" :)")], [Insert("W"), Delete(1), Retain(5)], [Retain(10)], [Retain(6), Insert("N"), Delete(1), Retain(3)])
  {
    assert [Retain(9), Insert(" :)")][1..] == [Insert(" :)")];
    assert [Retain(3), Insert("W"), Delete(1), Retain(5)][1..] == [Insert("W"), Delete(1), Retain(5)];
    assert AddRetain([Retain(7)], 3) == [Retain(10)];
    assert [Retain(6)] + [Insert(" :)")] == [Retain(6), Insert(" :)")];
    assert AddRetain([Retain(6), Insert("N"), Delete(1)], 3) == [Retain(6), Insert("N"), Delete(1), Retain(3)];
  }

  lemma Eval274()
    ensures TransformLoop([Retain(6), Insert(" :)")], [Insert("W"), Delete(1), Retain(5)], [Retain(10)], [Retain(6), Insert("N"), Delete(1), Retain(3)]) == TransformLoop([Retain(6), Insert(" :)")], [Delete(1), Retain(5)], [Retain(11)], [Retain(6), Insert("N"), Delete(1), Retain(3), Insert("W")])
  {
    assert [Retain(6), Insert(" :)")][1..] == [Insert(" :)")];
    assert [Insert("W"), Delete(1), Retain(5)][1..] == [Delete(1), Retain(5)];
    assert AddRetain([Retain(10)], 1) == [Retain(11)];
    assert AddInsert([Retain(6), Insert("N"), Delete(1), Retain(3)], "W") == [Retain(6), Insert("N"), Delete(1), Retain(3), Insert("W")];
  }

  lemma Eval275()
    ensures TransformLoop([Retain(6), Insert(" :)")], [Delete(1), Retain(5)], [Retain(11)], [Retain(6), Insert("N"), Delete(1), Retain(3), Insert("W")]) == TransformLoop([Retain(5), Insert(" :)")], [Retain(5)], [Retain(11)], [Retain(6), Insert("N"), Delete(1), Retain(3), Insert("W"), Delete(1)])
  {
    assert [Retain(6), Insert(" :)")][1..] == [Insert(" :)")];
    assert [Delete(1), Retain(5)][1..] == [Retain(5)];
    assert [Retain(5)] + [Insert(" :)")] == [Retain(5), Insert(" :)")];
    assert AddDelete([Retain(6), Insert("N"), Delete(1), Retain(3), Insert("W")], 1) == [Retain(6), Insert("N"), Delete(1), Retain(3), Insert("W"), Delete(1)];
  }

  lemma Eval276()
    ensures TransformLoop([Retain(5), Insert(" :)")], [Retain(5)], [Retain(11)], [Retain(6), Insert("N"), Delete(1), Retain(3), Insert("W"), Delete(1)]) == TransformLoop([Insert(" :)")], [], [Retain(16)], [Retain(6), Insert("N"), Delete(1), Retain(3), Insert("W"), Delete(1), Retain(5)])
  {
    assert [Retain(5), Insert(" :)")][1..] == [Insert(" :)")];
    assert [Retain(5)][1..] == [];
    assert AddRetain([Retain(11)], 5) == [Retain(16)];
    assert AddRetain([Retain(6), Insert("N"), Delete(1), Retain(3), Insert("W"), Delete(1)], 5) == [Retain(6), Insert("N"), Delete(1), Retain(3), Insert("W"), Delete(1), Retain(5)];
  }

  lemma Eval277()
    ensures TransformLoop([Insert(" :)")], [], [Retain(16)], [Retain(6), Insert("N"), Delete(1), Retain(3), Insert("W"), Delete(1), Retain(5)]) == TransformLoop([], [], [Retain(16), Insert(" :)")], [Retain(6), Insert("N"), Delete(1), Retain(3), Insert("W"), Delete(1), Retain(8)])
  {
    assert [Insert(" :)")][1..] == [];
    assert AddInsert([Retain(16)], " :)") == [Retain(16), Insert(" :)")];
    assert AddRetain([Retain(6), Insert("N"), Delete(1), Retain(3), Insert("W"), Delete(1), Retain(5)], 3) == [Retain(6), Insert("N"), Delete(1), Retain(3), Insert("W"), Delete(1), Retain(8)];
  }

  lemma Eval278()
    ensures TransformLoop([], [], [Retain(16), Insert(" :)")], [Retain(6), Insert("N"), Delete(1), Retain(3), Insert("W"), Delete(1), Retain(8)]) == Some(([Retain(16), Insert(" :)")], [Retain(6), Insert("N"), Delete(1), Retain(3), Insert("W"), Delete(1), Retain(8)]))
  {
  }

  lemma Eval279()
    ensures Transform([Retain(16), Insert(" :)")], [Retain(6), Insert("N"), Delete(1), Retain(3), Insert("W"), Delete(1), Retain(5)]) == Some(([Retain(16), Insert(" :)")], [Retain(6), Insert("N"), Delete(1), Retain(3), Insert("W"), Delete(1), Retain(8)]))
  {
    Eval269();
    Eval250();
    Eval270();
    Eval271();
    Eval272();
    Eval273();
    Eval274();
    Eval275();
    Eval276();
    Eval277();
    Eval278();
  }

  lemma Eval280()
    ensures Rebase(Awaiting([Retain(5), Insert(" new"), Retain(7)], Some([Retain(6), Insert("N"), Delete(1), Retain(3), Insert("W"), Delete(1), Retain(5)])), [Retain(12), Insert(" :)")]) == Some(([Retain(16), Insert(" :)")], Awaiting([Retain(5), Insert(" new"), Retain(10)], Some([Retain(6), Insert("N"), Delete(1), Retain(3), Insert("W"), Delete(1), Retain(8)]))))
  {
    Eval268();
    Eval279();
  }

  lemma Eval281()
    ensures Apply([Insert(" :)")], "") == Some(" :)")
  {
    Eval261();
    Eval8();
    assert [Insert(" :)")][1..] == [];
    assert ""[..0] == "";
    assert " :)" + "" == " :)";
  }

  lemma Eval282()
    ensures Apply([Retain(16), Insert(" :)")], "Hello New World!") == Some("Hello New World! :)")
  {
    Eval269();
    Eval281();
    assert [Retain(16), Insert(" :)")][1..] == [Insert(" :)")];
    assert "Hello New World!"[..16] == "Hello New World!";
    assert "Hello New World!"[16..] == "";
    assert "Hello New World!" + " :)" == "Hello New World! :)";
  }

  lemma Eval283()
    ensures Enqueue(None, [Retain(16), Insert(" :)")]) == Some([Retain(16), Insert(" :)")])
  {
  }

  lemma Eval284()
    ensures ModRange(Chars, "Hello New World", TextModification(9, 0, "er")) == Some((9, 9))
  {
  }

  lemma Eval285()
    ensures Replacement(9, 9, "er", 15) == [Retain(9), Insert("er"), Retain(6)]
  {
    assert AddRetain([], 9) == [Retain(9)];
    assert AddDelete([Retain(9)], 0) == [Retain(9)];
    assert AddInsert([Retain(9)], "er") == [Retain(9), Insert("er")];
    assert AddRetain([Retain(9), Insert("er")], 6) == [Retain(9), Insert("er"), Retain(6)];
  }

  lemma Eval286()
    ensures ModOp(Chars, "Hello New World", TextModification(9, 0, "er")) == Some([Retain(9), Insert("er"), Retain(6)])
  {
    Eval284();
    Eval285();
  }

  lemma Eval287()
    ensures BaseLen([Insert("er"), Retain(6)]) == 6
  {
    assert [Insert("er"), Retain(6)][1..] == [Retain(6)];
    Eval134();
  }

  lemma Eval288()
    ensures BaseLen([Retain(9), Insert("er"), Retain(6)]) == 15
  {
    assert [Retain(9), Insert("er"), Retain(6)][1..] == [Insert("er"), Retain(6)];
    Eval287();
  }

  lemma Eval289()
    ensures Apply([Retain(6)], " World") == Some(" World")
  {
    Eval134();
    Eval8();
    assert [Retain(6)][1..] == [];
    assert " World"[..6] == " World";
    assert " World"[6..] == "";
    assert " World" + "" == " World";
  }

  lemma Eval290()
    ensures Apply([Insert("er"), Retain(6)], " World") == Some("er World")
  {
    Eval287();
    Eval289();
    assert [Insert("er"), Retain(6)][1..] == [Retain(6)];
    assert " World"[..0] == "";
    assert "er" + " World" == "er World";
  }

  lemma Eval291()
    ensures Apply([Retain(9), Insert("er"), Retain(6)], "Hello New World") == Some("Hello Newer World")
  {
    Eval288();
    Eval290();
    assert [Retain(9), Insert("er"), Retain(6)][1..] == [Insert("er"), Retain(6)];
    assert "Hello New World"[..9] == "Hello New";
    assert "Hello New World"[9..] == " World";
    assert "Hello New" + "er World" == "Hello Newer World";
  }

  lemma Eval292()
    ensures ComposeLoop([Retain(15)], [Retain(9), Insert("er"), Retain(6)], []) == ComposeLoop([Retain(6)], [Insert("er"), Retain(6)], [Retain(9)])
  {
    assert [Retain(15)][1..] == [];
    assert [Retain(9), Insert("er"), Retain(6)][1..] == [Insert("er"), Retain(6)];
    assert AddRetain([], 9) == [Retain(9)];
  }

  lemma Eval293()
    ensures ComposeLoop([Retain(6)], [Insert("er"), Retain(6)], [Retain(9)]) == ComposeLoop([Retain(6)], [Retain(6)], [Retain(9), Insert("er")])
  {
    assert [Retain(6)][1..] == [];
    assert [Insert("er"), Retain(6)][1..] == [Retain(6)];
    assert AddInsert([Retain(9)], "er") == [Retain(9), Insert("er")];
  }

  lemma Eval294()
    ensures ComposeLoop([Retain(6)], [Retain(6)], [Retain(9), Insert("er")]) == ComposeLoop([], [], [Retain(9), Insert("er"), Retain(6)])
  {
    assert [Retain(6)][1..] == [];
    assert AddRetain([Retain(9), Insert("er")], 6) == [Retain(9), Insert("er"), Retain(6)];
  }

  lemma Eval295()
    ensures ComposeLoop([], [], [Retain(9), Insert("er"), Retain(6)]) == Some([Retain(9), Insert("er"), Retain(6)])
  {
  }

  lemma Eval296()
    ensures Compose([Retain(15)], [Retain(9), Insert("er"), Retain(6)]) == Some([Retain(9), Insert("er"), Retain(6)])
  {
    Eval186();
    Eval288();
    Eval292();
    Eval293();
    Eval294();
    Eval295();
  }

  lemma Eval297()
    ensures FromModsLoop(Chars, "Hello New World", [TextModification(9, 0, "er")], [Retain(15)]) == FromModsLoop(Chars, "Hello Newer World", [], [Retain(9), Insert("er"), Retain(6)])
  {
    assert [TextModification(9, 0, "er")][1..] == [];
    Eval286();
    Eval291();
    Eval296();
  }

  lemma Eval298()
    ensures FromModsLoop(Chars, "Hello Newer World", [], [Retain(9), Insert("er"), Retain(6)]) == Some([Retain(9), Insert("er"), Retain(6)])
  {
  }

  lemma Eval299()
    ensures FromModifications(Chars, "Hello New World", [TextModification(9, 0, "er")]) == Some([Retain(9), Insert("er"), Retain(6)])
  {
    assert AddRetain([], 15) == [Retain(15)];
    assert Identity("Hello New World") == [Retain(15)];
    Eval297();
    Eval298();
  }

  lemma Eval300()
    ensures TargetLen([Insert("!")]) == 1
  {
    assert [Insert("!")][1..] == [];
    Eval12();
  }

  lemma Eval301()
    ensures TargetLen([Retain(15), Insert("!")]) == 16
  {
    assert [Retain(15), Insert("!")][1..] == [Insert("!")];
    Eval300();
  }

  lemma Eval302()
    ensures ComposeLoop([Retain(15), Insert("!")], [Retain(16), Insert(" :)")], []) == ComposeLoop([Insert("!")], [Retain(1), Insert(" :)")], [Retain(15)])
  {
    assert [Retain(15), Insert("!")][1..] == [Insert("!")];
    assert [Retain(16), Insert(" :)")][1..] == [Insert(" :)")];
    assert AddRetain([], 15) == [Retain(15)];
  }

  lemma Eval303()
    ensures ComposeLoop([Insert("!")], [Retain(1), Insert(" :)")], [Retain(15)]) == ComposeLoop([], [Insert(" :)")], [Retain(15), Insert("!")])
  {
    assert [Insert("!")][1..] == [];
    assert [Retain(1), Insert(" :)")][1..] == [Insert(" :)")];
    assert AddInsert([Retain(15)], "!") == [Retain(15), Insert("!")];
  }

  lemma Eval304()
    ensures ComposeLoop([], [Insert(" :)")], [Retain(15), Insert("!")]) == ComposeLoop([], [], [Retain(15), Insert("! :)")])
  {
    assert [Insert(" :)")][1..] == [];
    assert [Retain(15), Insert("!")][..1] == [Retain(15)];
    assert "!" + " :)" == "! :)";
    assert AddInsert([Retain(15), Insert("!")], " :)") == [Retain(15), Insert("! :)")];
  }

  lemma Eval305()
    ensures ComposeLoop([], [], [Retain(15), Insert("! :)")]) == Some([Retain(15), Insert("! :)")])
  {
  }

  lemma Eval306()
    ensures Compose([Retain(15), Insert("!")], [Retain(16), Insert(" :)")]) == Some([Retain(15), Insert("! :)")])
  {
    Eval301();
    Eval269();
    Eval302();
    Eval303();
    Eval304();
    Eval305();
  }

  lemma Eval307()
    ensures Outstanding([Retain(15), Insert("!")], Some([Retain(16), Insert(" :)")])) == Some([Retain(15), Insert("! :)")])
  {
    Eval306();
  }

  lemma Eval308()
    ensures BaseLen([Insert("! :)")]) == 0
  {
    assert [Insert("! :)")][1..] == [];
    Eval4();
  }

  lemma Eval309()
    ensures BaseLen([Retain(15), Insert("! :)")]) == 15
  {
    assert [Retain(15), Insert("! :)")][1..] == [Insert("! :)")];
    Eval308();
  }

  lemma Eval310()
    ensures TransformLoop([Retain(15), Insert("! :)")], [Retain(9), Insert("er"), Retain(6)], [], []) == TransformLoop([Retain(6), Insert("! :)")], [Insert("er"), Retain(6)], [Retain(9)], [Retain(9)])
  {
    assert [Retain(15), Insert("! :)")][1..] == [Insert("! :)")];
    assert [Retain(9), Insert("er"), Retain(6)][1..] == [Insert("er"), Retain(6)];
    assert AddRetain([], 9) == [Retain(9)];
    assert [Retain(6)] + [Insert("! :)")] == [Retain(6), Insert("! :)")];
  }

  lemma Eval311()
    ensures TransformLoop([Retain(6), Insert("! :)")], [Insert("er"), Retain(6)], [Retain(9)], [Retain(9)]) == TransformLoop([Retain(6), Insert("! :)")], [Retain(6)], [Retain(11)], [Retain(9), Insert("er")])
  {
    assert [Retain(6), Insert("! :)")][1..] == [Insert("! :)")];
    assert [Insert("er"), Retain(6)][1..] == [Retain(6)];
    assert AddRetain([Retain(9)], 2) == [Retain(11)];
    assert AddInsert([Retain(9)], "er") == [Retain(9), Insert("er")];
  }

  lemma Eval312()
    ensures TransformLoop([Retain(6), Insert("! :)")], [Retain(6)], [Retain(11)], [Retain(9), Insert("er")]) == TransformLoop([Insert("! :)")], [], [Retain(17)], [Retain(9), Insert("er"), Retain(6)])
  {
    assert [Retain(6), Insert("! :)")][1..] == [Insert("! :)")];
    assert [Retain(6)][1..] == [];
    assert AddRetain([Retain(11)], 6) == [Retain(17)];
    assert AddRetain([Retain(9), Insert("er")], 6) == [Retain(9), Insert("er"), Retain(6)];
  }

  lemma Eval313()
    ensures TransformLoop([Insert("! :)")], [], [Retain(17)], [Retain(9), Insert("er"), Retain(6)]) == TransformLoop([], [], [Retain(17), Insert("! :)")], [Retain(9), Insert("er"), Retain(10)])
  {
    assert [Insert("! :)")][1..] == [];
    assert AddInsert([Retain(17)], "! :)") == [Retain(17), Insert("! :)")];
    assert AddRetain([Retain(9), Insert("er"), Retain(6)], 4) == [Retain(9), Insert("er"), Retain(10)];
  }

  lemma Eval314()
    ensures TransformLoop([], [], [Retain(17), Insert("! :)")], [Retain(9), Insert("er"), Retain(10)]) == Some(([Retain(17), Insert("! :)")], [Retain(9), Insert("er"), Retain(10)]))
  {
  }

  lemma Eval315()
    ensures Transform([Retain(15), Insert("! :)")], [Retain(9), Insert("er"), Retain(6)]) == Some(([Retain(17), Insert("! :)")], [Retain(9), Insert("er"), Retain(10)]))
  {
    Eval309();
    Eval288();
    Eval310();
    Eval311();
    Eval312();
    Eval313();
    Eval314();
  }

  lemma Eval316()
    ensures BaseLen([Retain(17), Insert("! :)")]) == 17
  {
    assert [Retain(17), Insert("! :)")][1..] == [Insert("! :)")];
    Eval308();
  }

  lemma Eval317()
    ensures Flush(Chars, "Hello Newer World", "", "! :)") == [TextModification(17, 0, "! :)")]
  {
  }

  lemma Eval318()
    requires BaseLen([]) == 0
    ensures ToModsLoop(Chars, [], "", "Hello Newer World", "", "! :)") == [TextModification(17, 0, "! :)")]
  {
    Eval317();
  }

  lemma Eval319()
    requires BaseLen([Insert("! :)")]) == 0
    ensures ToModsLoop(Chars, [Insert("! :)")], "", "Hello Newer World", "", "") == [TextModification(17, 0, "! :)")]
  {
    Eval308();
    Eval4();
    assert [Insert("! :)")][1..] == [];
    assert "" + "! :)" == "! :)";
    Eval318();
  }

  lemma Eval320()
    requires BaseLen([Retain(17), Insert("! :)")]) == 17
    ensures ToModsLoop(Chars, [Retain(17), Insert("! :)")], "Hello Newer World", "", "", "") == [TextModification(17, 0, "! :)")]
  {
    Eval316();
    Eval308();
    assert [Retain(17), Insert("! :)")][1..] == [Insert("! :)")];
    ToModsRetainUnfold(Chars, [Retain(17), Insert("! :)")], "Hello Newer World", "", "", "");
    assert "Hello Newer World"[..17] == "Hello Newer World";
    assert "Hello Newer World"[17..] == "";
    assert "" + "" == "";
    assert "" + "Hello Newer World" == "Hello Newer World";
    Eval128();
    Eval319();
    assert [] + [TextModification(17, 0, "! :)")] == [TextModification(17, 0, "! :)")];
  }

  lemma Eval321()
    ensures UpdateFor(Chars, [Retain(17), Insert("! :)")], "Hello Newer World") == Some(Update([TextModification(17, 0, "! :)")]))
  {
    Eval316();
    Eval320();
  }

  lemma Eval322()
    ensures RebaseIde(Chars, Awaiting([Retain(15), Insert("!")], Some([Retain(16), Insert(" :)")])), [Retain(9), Insert("er"), Retain(6)], "Hello Newer World") == Some(([Retain(9), Insert("er"), Retain(10)], Awaiting([Retain(17), Insert("! :)")], None), [Ack, Update([TextModification(17, 0, "! :)")])]))
  {
    Eval307();
    Eval315();
    Eval321();
  }

  lemma Eval323()
    ensures BaseLen([Insert("er"), Retain(10)]) == 10
  {
    assert [Insert("er"), Retain(10)][1..] == [Retain(10)];
    Eval5();
  }

  lemma Eval324()
    ensures BaseLen([Retain(9), Insert("er"), Retain(10)]) == 19
  {
    assert [Retain(9), Insert("er"), Retain(10)][1..] == [Insert("er"), Retain(10)];
    Eval323();
  }

  lemma Eval325()
    ensures Apply([Retain(10)], " World! :)") == Some(" World! :)")
  {
    Eval5();
    Eval8();
    assert [Retain(10)][1..] == [];
    assert " World! :)"[..10] == " World! :)";
    assert " World! :)"[10..] == "";
    assert " World! :)" + "" == " World! :)";
  }

  lemma Eval326()
    ensures Apply([Insert("er"), Retain(10)], " World! :)") == Some("er World! :)")
  {
    Eval323();
    Eval325();
    assert [Insert("er"), Retain(10)][1..] == [Retain(10)];
    assert " World! :)"[..0] == "";
    assert "er" + " World! :)" == "er World! :)";
  }

  lemma Eval327()
    ensures Apply([Retain(9), Insert("er"), Retain(10)], "Hello New World! :)") == Some("Hello Newer World! :)")
  {
    Eval324();
    Eval326();
    assert [Retain(9), Insert("er"), Retain(10)][1..] == [Insert("er"), Retain(10)];
    assert "Hello New World! :)"[..9] == "Hello New";
    assert "Hello New World! :)"[9..] == " World! :)";
    assert "Hello New" + "er World! :)" == "Hello Newer World! :)";
  }

  lemma Eval328()
    ensures TargetLen([Insert("W"), Delete(1), Retain(8)]) == 9
  {
    assert [Insert("W"), Delete(1), Retain(8)][1..] == [Delete(1), Retain(8)];
    Eval204();
  }

  lemma Eval329()
    ensures TargetLen([Retain(3), Insert("W"), Delete(1), Retain(8)]) == 12
  {
    assert [Retain(3), Insert("W"), Delete(1), Retain(8)][1..] == [Insert("W"), Delete(1), Retain(8)];
    Eval328();
  }

  lemma Eval330()
    ensures TargetLen([Delete(1), Retain(3), Insert("W"), Delete(1), Retain(8)]) == 12
  {
    assert [Delete(1), Retain(3), Insert("W"), Delete(1), Retain(8)][1..] == [Retain(3), Insert("W"), Delete(1), Retain(8)];
    Eval329();
  }

  lemma Eval331()
    ensures TargetLen([Insert("N"), Delete(1), Retain(3), Insert("W"), Delete(1), Retain(8)]) == 13
  {
    assert [Insert("N"), Delete(1), Retain(3), Insert("W"), Delete(1), Retain(8)][1..] == [Delete(1), Retain(3), Insert("W"), Delete(1), Retain(8)];
    Eval330();
  }

  lemma Eval332()
    ensures TargetLen([Retain(6), Insert("N"), Delete(1), Retain(3), Insert("W"), Delete(1), Retain(8)]) == 19
  {
    assert [Retain(6), Insert("N"), Delete(1), Retain(3), Insert("W"), Delete(1), Retain(8)][1..] == [Insert("N"), Delete(1), Retain(3), Insert("W"), Delete(1), Retain(8)];
    Eval331();
  }

  lemma Eval333()
    ensures ComposeLoop([Retain(6), Insert("N"), Delete(1), Retain(3), Insert("W"), Delete(1), Retain(8)], [Retain(9), Insert("er"), Retain(10)], []) == ComposeLoop([Insert("N"), Delete(1), Retain(3), Insert("W"), Delete(1), Retain(8)], [Retain(3), Insert("er"), Retain(10)], [Retain(6)])
  {
    assert [Retain(6), Insert("N"), Delete(1), Retain(3), Insert("W"), Delete(1), Retain(8)][1..] == [Insert("N"), Delete(1), Retain(3), Insert("W"), Delete(1), Retain(8)];
    assert [Retain(9), Insert("er"), Retain(10)][1..] == [Insert("er"), Retain(10)];
    assert AddRetain([], 6) == [Retain(6)];
  }

  lemma Eval334()
    ensures ComposeLoop([Insert("N"), Delete(1), Retain(3), Insert("W"), Delete(1), Retain(8)], [Retain(3), Insert("er"), Retain(10)], [Retain(6)]) == ComposeLoop([Delete(1), Retain(3), Insert("W"), Delete(1), Retain(8)], [Retain(2), Insert("er"), Retain(10)], [Retain(6), Insert("N")])
  {
    assert [Insert("N"), Delete(1), Retain(3), Insert("W"), Delete(1), Retain(8)][1..] == [Delete(1), Retain(3), Insert("W"), Delete(1), Retain(8)];
    assert [Retain(3), Insert("er"), Retain(10)][1..] == [Insert("er"), Retain(10)];
    assert AddInsert([Retain(6)], "N") == [Retain(6), Insert("N")];
  }

  lemma Eval335()
    ensures ComposeLoop([Delete(1), Retain(3), Insert("W"), Delete(1), Retain(8)], [Retain(2), Insert("er"), Retain(10)], [Retain(6), Insert("N")]) == ComposeLoop([Retain(3), Insert("W"), Delete(1), Retain(8)], [Retain(2), Insert("er"), Retain(10)], [Retain(6), Insert("N"), Delete(1)])
  {
    assert [Delete(1), Retain(3), Insert("W"), Delete(1), Retain(8)][1..] == [Retain(3), Insert("W"), Delete(1), Retain(8)];
    assert [Retain(2), Insert("er"), Retain(10)][1..] == [Insert("er"), Retain(10)];
    assert AddDelete([Retain(6), Insert("N")], 1) == [Retain(6), Insert("N"), Delete(1)];
  }

  lemma Eval336()
    ensures ComposeLoop([Retain(3), Insert("W"), Delete(1), Retain(8)], [Retain(2), Insert("er"), Retain(10)], [Retain(6), Insert("N"), Delete(1)]) == ComposeLoop([Retain(1), Insert("W"), Delete(1), Retain(8)], [Insert("er"), Retain(10)], [Retain(6), Insert("N"), Delete(1), Retain(2)])
  {
    assert [Retain(3), Insert("W"), Delete(1), Retain(8)][1..] == [Insert("W"), Delete(1), Retain(8)];
    assert [Retain(2), Insert("er"), Retain(10)][1..] == [Insert("er"), Retain(10)];
    assert AddRetain([Retain(6), Insert("N"), Delete(1)], 2) == [Retain(6), Insert("N"), Delete(1), Retain(2)];
  }

  lemma Eval337()
    ensures ComposeLoop([Retain(1), Insert("W"), Delete(1), Retain(8)], [Insert("er"), Retain(10)], [Retain(6), Insert("N"), Delete(1), Retain(2)]) == ComposeLoop([Retain(1), Insert("W"), Delete(1), Retain(8)], [Retain(10)], [Retain(6), Insert("N"), Delete(1), Retain(2), Insert("er")])
  {
    assert [Retain(1), Insert("W"), Delete(1), Retain(8)][1..] == [Insert("W"), Delete(1), Retain(8)];
    assert [Insert("er"), Retain(10)][1..] == [Retain(10)];
    assert AddInsert([Retain(6), Insert("N"), Delete(1), Retain(2)], "er") == [Retain(6), Insert("N"), Delete(1), Retain(2), Insert("er")];
  }

  lemma Eval338()
    ensures ComposeLoop([Retain(1), Insert("W"), Delete(1), Retain(8)], [Retain(10)], [Retain(6), Insert("N"), Delete(1), Retain(2), Insert("er")]) == ComposeLoop([Insert("W"), Delete(1), Retain(8)], [Retain(9)], [Retain(6), Insert("N"), Delete(1), Retain(2), Insert("er"), Retain(1)])
  {
    assert [Retain(1), Insert("W"), Delete(1), Retain(8)][1..] == [Insert("W"), Delete(1), Retain(8)];
    assert [Retain(10)][1..] == [];
    assert AddRetain([Retain(6), Insert("N"), Delete(1), Retain(2), Insert("er")], 1) == [Retain(6), Insert("N"), Delete(1), Retain(2), Insert("er"), Retain(1)];
  }

  lemma Eval339()
    ensures ComposeLoop([Insert("W"), Delete(1), Retain(8)], [Retain(9)], [Retain(6), Insert("N"), Delete(1), Retain(2), Insert("er"), Retain(1)]) == ComposeLoop([Delete(1), Retain(8)], [Retain(8)], [Retain(6), Insert("N"), Delete(1), Retain(2), Insert("er"), Retain(1), Insert("W")])
  {
    assert [Insert("W"), Delete(1), Retain(8)][1..] == [Delete(1), Retain(8)];
    assert [Retain(9)][1..] == [];
    assert AddInsert([Retain(6), Insert("N"), Delete(1), Retain(2), Insert("er"), Retain(1)], "W") == [Retain(6), Insert("N"), Delete(1), Retain(2), Insert("er"), Retain(1), Insert("W")];
  }

  lemma Eval340()
    ensures ComposeLoop([Delete(1), Retain(8)], [Retain(8)], [Retain(6), Insert("N"), Delete(1), Retain(2), Insert("er"), Retain(1), Insert("W")]) == ComposeLoop([Retain(8)], [Retain(8)], [Retain(6), Insert("N"), Delete(1), Retain(2), Insert("er"), Retain(1), Insert("W"), Delete(1)])
  {
    assert [Delete(1), Retain(8)][1..] == [Retain(8)];
    assert [Retain(8)][1..] == [];
    assert AddDelete([Retain(6), Insert("N"), Delete(1), Retain(2), Insert("er"), Retain(1), Insert("W")], 1) == [Retain(6), Insert("N"), Delete(1), Retain(2), Insert("er"), Retain(1), Insert("W"), Delete(1)];
  }

  lemma Eval341()
    ensures ComposeLoop([Retain(8)], [Retain(8)], [Retain(6), Insert("N"), Delete(1), Retain(2), Insert("er"), Retain(1), Insert("W"), Delete(1)]) == ComposeLoop([], [], [Retain(6), Insert("N"), Delete(1), Retain(2), Insert("er"), Retain(1), Insert("W"), Delete(1), Retain(8)])
  {
    assert [Retain(8)][1..] == [];
    assert AddRetain([Retain(6), Insert("N"), Delete(1), Retain(2), Insert("er"), Retain(1), Insert("W"), Delete(1)], 8) == [Retain(6), Insert("N"), Delete(1), Retain(2), Insert("er"), Retain(1), Insert("W"), Delete(1), Retain(8)];
  }

  lemma Eval342()
    ensures ComposeLoop([], [], [Retain(6), Insert("N"), Delete(1), Retain(2), Insert("er"), Retain(1), Insert("W"), Delete(1), Retain(8)]) == Some([Retain(6), Insert("N"), Delete(1), Retain(2), Insert("er"), Retain(1), Insert("W"), Delete(1), Retain(8)])
  {
  }

  lemma Eval343()
    ensures Compose([Retain(6), Insert("N"), Delete(1), Retain(3), Insert("W"), Delete(1), Retain(8)], [Retain(9), Insert("er"), Retain(10)]) == Some([Retain(6), Insert("N"), Delete(1), Retain(2), Insert("er"), Retain(1), Insert("W"), Delete(1), Retain(8)])
  {
    Eval332();
    Eval324();
    Eval333();
    Eval334();
    Eval335();
    Eval336();
    Eval337();
    Eval338();
    Eval339();
    Eval340();
    Eval341();
    Eval342();
  }

  lemma Eval344()
    ensures Enqueue(Some([Retain(6), Insert("N"), Delete(1), Retain(3), Insert("W"), Delete(1), Retain(8)]), [Retain(9), Insert("er"), Retain(10)]) == Some([Retain(6), Insert("N"), Delete(1), Retain(2), Insert("er"), Retain(1), Insert("W"), Delete(1), Retain(8)])
  {
    Eval343();
  }

  lemma Eval345()
    ensures Build([Insert("#")]) == [Insert("#")]
  {
    assert [Insert("#")][..0] == [];
    Eval52();
    assert AddInsert([], "#") == [Insert("#")];
  }

  lemma Eval346()
    ensures Build([Insert("#"), Retain(19)]) == [Insert("#"), Retain(19)]
  {
    assert [Insert("#"), Retain(19)][..1] == [Insert("#")];
    Eval345();
    assert AddRetain([Insert("#")], 19) == [Insert("#"), Retain(19)];
  }

  lemma Eval347()
    ensures BaseLen([Retain(19)]) == 19
  {
    assert [Retain(19)][1..] == [];
    Eval4();
  }

  lemma Eval348()
    ensures BaseLen([Insert("#"), Retain(19)]) == 19
  {
    assert [Insert("#"), Retain(19)][1..] == [Retain(19)];
    Eval347();
  }

  lemma Eval349()
    ensures BaseLen([Insert("W"), Delete(1), Retain(8)]) == 9
  {
    assert [Insert("W"), Delete(1), Retain(8)][1..] == [Delete(1), Retain(8)];
    Eval179();
  }

  lemma Eval350()
    ensures BaseLen([Retain(1), Insert("W"), Delete(1), Retain(8)]) == 10
  {
    assert [Retain(1), Insert("W"), Delete(1), Retain(8)][1..] == [Insert("W"), Delete(1), Retain(8)];
    Eval349();
  }

  lemma Eval351()
    ensures BaseLen([Insert("er"), Retain(1), Insert("W"), Delete(1), Retain(8)]) == 10
  {
    assert [Insert("er"), Retain(1), Insert("W"), Delete(1), Retain(8)][1..] == [Retain(1), Insert("W"), Delete(1), Retain(8)];
    Eval350();
  }

  lemma Eval352()
    ensures BaseLen([Retain(2), Insert("er"), Retain(1), Insert("W"), Delete(1), Retain(8)]) == 12
  {
    assert [Retain(2), Insert("er"), Retain(1), Insert("W"), Delete(1), Retain(8)][1..] == [Insert("er"), Retain(1), Insert("W"), Delete(1), Retain(8)];
    Eval351();
  }

  lemma Eval353()
    ensures BaseLen([Delete(1), Retain(2), Insert("er"), Retain(1), Insert("W"), Delete(1), Retain(8)]) == 13
  {
    assert [Delete(1), Retain(2), Insert("er"), Retain(1), Insert("W"), Delete(1), Retain(8)][1..] == [Retain(2), Insert("er"), Retain(1), Insert("W"), Delete(1), Retain(8)];
    Eval352();
  }

  lemma Eval354()
    ensures BaseLen([Insert("N"), Delete(1), Retain(2), Insert("er"), Retain(1), Insert("W"), Delete(1), Retain(8)]) == 13
  {
    assert [Insert("N"), Delete(1), Retain(2), Insert("er"), Retain(1), Insert("W"), Delete(1), Retain(8)][1..] == [Delete(1), Retain(2), Insert("er"), Retain(1), Insert("W"), Delete(1), Retain(8)];
    Eval353();
  }

  lemma Eval355()
    ensures BaseLen([Retain(6), Insert("N"), Delete(1), Retain(2), Insert("er"), Retain(1), Insert("W"), Delete(1), Retain(8)]) == 19
  {
    assert [Retain(6), Insert("N"), Delete(1), Retain(2), Insert("er"), Retain(1), Insert("W"), Delete(1), Retain(8)][1..] == [Insert("N"), Delete(1), Retain(2), Insert("er"), Retain(1), Insert("W"), Delete(1), Retain(8)];
    Eval354();
  }

  lemma Eval356()
    ensures TransformLoop([Insert("#"), Retain(19)], [Retain(6), Insert("N"), Delete(1), Retain(2), Insert("er"), Retain(1), Insert("W"), Delete(1), Retain(8)], [], []) == TransformLoop([Retain(19)], [Retain(6), Insert("N"), Delete(1), Retain(2), Insert("er"), Retain(1), Insert("W"), Delete(1), Retain(8)], [Insert("#")], [Retain(1)])
  {
    assert [Insert("#"), Retain(19)][1..] == [Retain(19)];
    assert [Retain(6), Insert("N"), Delete(1), Retain(2), Insert("er"), Retain(1), Insert("W"), Delete(1), Retain(8)][1..] == [Insert("N"), Delete(1), Retain(2), Insert("er"), Retain(1), Insert("W"), Delete(1), Retain(8)];
    assert AddInsert([], "#") == [Insert("#")];
    assert AddRetain([], 1) == [Retain(1)];
  }

  lemma Eval357()
    ensures TransformLoop([Retain(19)], [Retain(6), Insert("N"), Delete(1), Retain(2), Insert("er"), Retain(1), Insert("W"), Delete(1), Retain(8)], [Insert("#")], [Retain(1)]) == TransformLoop([Retain(13)], [Insert("N"), Delete(1), Retain(2), Insert("er"), Retain(1), Insert("W"), Delete(1), Retain(8)], [Insert("#"), Retain(6)], [Retain(7)])
  {
    assert [Retain(19)][1..] == [];
    assert [Retain(6), Insert("N"), Delete(1), Retain(2), Insert("er"), Retain(1), Insert("W"), Delete(1), Retain(8)][1..] == [Insert("N"), Delete(1), Retain(2), Insert("er"), Retain(1), Insert("W"), Delete(1), Retain(8)];
    assert AddRetain([Insert("#")], 6) == [Insert("#"), Retain(6)];
    assert [Retain(13)] + [] == [Retain(13)];
    assert AddRetain([Retain(1)], 6) == [Retain(7)];
  }

  lemma Eval358()
    ensures TransformLoop([Retain(13)], [Insert("N"), Delete(1), Retain(2), Insert("er"), Retain(1), Insert("W"), Delete(1), Retain(8)], [Insert("#"), Retain(6)], [Retain(7)]) == TransformLoop([Retain(13)], [Delete(1), Retain(2), Insert("er"), Retain(1), Insert("W"), Delete(1), Retain(8)], [Insert("#"), Retain(7)], [Retain(7), Insert("N")])
  {
    assert [Retain(13)][1..] == [];
    assert [Insert("N"), Delete(1), Retain(2), Insert("er"), Retain(1), Insert("W"), Delete(1), Retain(8)][1..] == [Delete(1), Retain(2), Insert("er"), Retain(1), Insert("W"), Delete(1), Retain(8)];
    assert AddRetain([Insert("#"), Retain(6)], 1) == [Insert("#"), Retain(7)];
    assert AddInsert([Retain(7)], "N") == [Retain(7), Insert("N")];
  }

  lemma Eval359()
    ensures TransformLoop([Retain(13)], [Delete(1), Retain(2), Insert("er"), Retain(1), Insert("W"), Delete(1), Retain(8)], [Insert("#"), Retain(7)], [Retain(7), Insert("N")]) == TransformLoop([Retain(12)], [Retain(2), Insert("er"), Retain(1), Insert("W"), Delete(1), Retain(8)], [Insert("#"), Retain(7)], [Retain(7), Insert("N"), Delete(1)])
  {
    assert [Retain(13)][1..] == [];
    assert [Delete(1), Retain(2), Insert("er"), Retain(1), Insert("W"), Delete(1), Retain(8)][1..] == [Retain(2), Insert("er"), Retain(1), Insert("W"), Delete(1), Retain(8)];
    assert [Retain(12)] + [] == [Retain(12)];
    assert AddDelete([Retain(7), Insert("N")], 1) == [Retain(7), Insert("N"), Delete(1)];
  }

  lemma Eval360()
    ensures TransformLoop([Retain(12)], [Retain(2), Insert("er"), Retain(1), Insert("W"), Delete(1), Retain(8)], [Insert("#"), Retain(7)], [Retain(7), Insert("N"), Delete(1)]) == TransformLoop([Retain(10)], [Insert("er"), Retain(1), Insert("W"), Delete(1), Retain(8)], [Insert("#"), Retain(9)], [Retain(7), Insert("N"), Delete(1), Retain(2)])
  {
    assert [Retain(12)][1..] == [];
    assert [Retain(2), Insert("er"), Retain(1), Insert("W"), Delete(1), Retain(8)][1..] == [Insert("er"), Retain(1), Insert("W"), Delete(1), Retain(8)];
    assert AddRetain([Insert("#"), Retain(7)], 2) == [Insert("#"), Retain(9)];
    assert [Retain(10)] + [] == [Retain(10)];
    assert AddRetain([Retain(7), Insert("N"), Delete(1)], 2) == [Retain(7), Insert("N"), Delete(1), Retain(2)];
  }

  lemma Eval361()
    ensures TransformLoop([Retain(10)], [Insert("er"), Retain(1), Insert("W"), Delete(1), Retain(8)], [Insert("#"), Retain(9)], [Retain(7), Insert("N"), Delete(1), Retain(2)]) == TransformLoop([Retain(10)], [Retain(1), Insert("W"), Delete(1), Retain(8)], [Insert("#"), Retain(11)], [Retain(7), Insert("N"), Delete(1), Retain(2), Insert("er")])
  {
    assert [Retain(10)][1..] == [];
    assert [Insert("er"), Retain(1), Insert("W"), Delete(1), Retain(8)][1..] == [Retain(1), Insert("W"), Delete(1), Retain(8)];
    assert AddRetain([Insert("#"), Retain(9)], 2) == [Insert("#"), Retain(11)];
    assert AddInsert([Retain(7), Insert("N"), Delete(1), Retain(2)], "er") == [Retain(7), Insert("N"), Delete(1), Retain(2), Insert("er")];
  }

  lemma Eval362()
    ensures TransformLoop([Retain(10)], [Retain(1), Insert("W"), Delete(1), Retain(8)], [Insert("#"), Retain(11)], [Retain(7), Insert("N"), Delete(1), Retain(2), Insert("er")]) == TransformLoop([Retain(9)], [Insert("W"), Delete(1), Retain(8)], [Insert("#"), Retain(12)], [Retain(7), Insert("N"), Delete(1), Retain(2), Insert("er"), Retain(1)])
  {
    assert [Retain(10)][1..] == [];
    assert [Retain(1), Insert("W"), Delete(1), Retain(8)][1..] == [Insert("W"), Delete(1), Retain(8)];
    assert AddRetain([Insert("#"), Retain(11)], 1) == [Insert("#"), Retain(12)];
    assert [Retain(9)] + [] == [Retain(9)];
    assert AddRetain([Retain(7), Insert("N"), Delete(1), Retain(2), Insert("er")], 1) == [Retain(7), Insert("N"), Delete(1), Retain(2), Insert("er"), Retain(1)];
  }

  lemma Eval363()
    ensures TransformLoop([Retain(9)], [Insert("W"), Delete(1), Retain(8)], [Insert("#"), Retain(12)], [Retain(7), Insert("N"), Delete(1), Retain(2), Insert("er"), Retain(1)]) == TransformLoop([Retain(9)], [Delete(1), Retain(8)], [Insert("#"), Retain(13)], [Retain(7), Insert("N"), Delete(1), Retain(2), Insert("er"), Retain(1), Insert("W")])
  {
    assert [Retain(9)][1..] == [];
    assert [Insert("W"), Delete(1), Retain(8)][1..] == [Delete(1), Retain(8)];
    assert AddRetain([Insert("#"), Retain(12)], 1) == [Insert("#"), Retain(13)];
    assert AddInsert([Retain(7), Insert("N"), Delete(1), Retain(2), Insert("er"), Retain(1)], "W") == [Retain(7), Insert("N"), Delete(1), Retain(2), Insert("er"), Retain(1), Insert("W")];
  }

  lemma Eval364()
    ensures TransformLoop([Retain(9)], [Delete(1), Retain(8)], [Insert("#"), Retain(13)], [Retain(7), Insert("N"), Delete(1), Retain(2), Insert("er"), Retain(1), Insert("W")]) == TransformLoop([Retain(8)], [Retain(8)], [Insert("#"), Retain(13)], [Retain(7), Insert("N"), Delete(1), Retain(2), Insert("er"), Retain(1), Insert("W"), Delete(1)])
  {
    assert [Retain(9)][1..] == [];
    assert [Delete(1), Retain(8)][1..] == [Retain(8)];
    assert [Retain(8)] + [] == [Retain(8)];
    assert AddDelete([Retain(7), Insert("N"), Delete(1), Retain(2), Insert("er"), Retain(1), Insert("W")], 1) == [Retain(7), Insert("N"), Delete(1), Retain(2), Insert("er"), Retain(1), Insert("W"), Delete(1)];
  }

  lemma Eval365()
    ensures TransformLoop([Retain(8)], [Retain(8)], [Insert("#"), Retain(13)], [Retain(7), Insert("N"), Delete(1), Retain(2), Insert("er"), Retain(1), Insert("W"), Delete(1)]) == TransformLoop([], [], [Insert("#"), Retain(21)], [Retain(7), Insert("N"), Delete(1), Retain(2), Insert("er"), Retain(1), Insert("W"), Delete(1), Retain(8)])
  {
    assert [Retain(8)][1..] == [];
    assert AddRetain([Insert("#"), Retain(13)], 8) == [Insert("#"), Retain(21)];
    assert AddRetain([Retain(7), Insert("N"), Delete(1), Retain(2), Insert("er"), Retain(1), Insert("W"), Delete(1)], 8) == [Retain(7), Insert("N"), Delete(1), Retain(2), Insert("er"), Retain(1), Insert("W"), Delete(1), Retain(8)];
  }

  lemma Eval366()
    ensures TransformLoop([], [], [Insert("#"), Retain(21)], [Retain(7), Insert("N"), Delete(1), Retain(2), Insert("er"), Retain(1), Insert("W"), Delete(1), Retain(8)]) == Some(([Insert("#"), Retain(21)], [Retain(7), Insert("N"), Delete(1), Retain(2), Insert("er"), Retain(1), Insert("W"), Delete(1), Retain(8)]))
  {
  }

  lemma Eval367()
    ensures Transform([Insert("#"), Retain(19)], [Retain(6), Insert("N"), Delete(1), Retain(2), Insert("er"), Retain(1), Insert("W"), Delete(1), Retain(8)]) == Some(([Insert("#"), Retain(21)], [Retain(7), Insert("N"), Delete(1), Retain(2), Insert("er"), Retain(1), Insert("W"), Delete(1), Retain(8)]))
  {
    Eval348();
    Eval355();
    Eval356();
    Eval357();
    Eval358();
    Eval359();
    Eval360();
    Eval361();
    Eval362();
    Eval363();
    Eval364();
    Eval365();
    Eval366();
  }

  lemma Eval368()
    ensures Rebase(Awaiting([Retain(6), Insert("N"), Delete(1), Retain(2), Insert("er"), Retain(1), Insert("W"), Delete(1), Retain(8)], None), [Insert("#"), Retain(19)]) == Some(([Insert("#"), Retain(21)], Awaiting([Retain(7), Insert("N"), Delete(1), Retain(2), Insert("er"), Retain(1), Insert("W"), Delete(1), Retain(8)], None)))
  {
    Eval367();
  }

  lemma Eval369()
    ensures BaseLen([Retain(21)]) == 21
  {
    assert [Retain(21)][1..] == [];
    Eval4();
  }

  lemma Eval370()
    ensures BaseLen([Insert("#"), Retain(21)]) == 21
  {
    assert [Insert("#"), Retain(21)][1..] == [Retain(21)];
    Eval369();
  }

  lemma Eval371()
    ensures Apply([Retain(21)], "Hello Newer World! :)") == Some("Hello Newer World! :)")
  {
    Eval369();
    Eval8();
    assert [Retain(21)][1..] == [];
    assert "Hello Newer World! :)"[..21] == "Hello Newer World! :)";
    assert "Hello Newer World! :)"[21..] == "";
    assert "Hello Newer World! :)" + "" == "Hello Newer World! :)";
  }

  lemma Eval372()
    ensures Apply([Insert("#"), Retain(21)], "Hello Newer World! :)") == Some("#Hello Newer World! :)")
  {
    Eval370();
    Eval371();
    assert [Insert("#"), Retain(21)][1..] == [Retain(21)];
    assert "Hello Newer World! :)"[..0] == "";
    assert "#" + "Hello Newer World! :)" == "#Hello Newer World! :)";
  }

  lemma Eval373()
    ensures Enqueue(None, [Insert("#"), Retain(21)]) == Some([Insert("#"), Retain(21)])
  {
  }

  lemma Eval374()
    ensures Apply([Insert("! :)")], "") == Some("! :)")
  {
    Eval308();
    Eval8();
    assert [Insert("! :)")][1..] == [];
    assert ""[..0] == "";
    assert "! :)" + "" == "! :)";
  }

  lemma Eval375()
    ensures Apply([Retain(17), Insert("! :)")], "Hello Newer World") == Some("Hello Newer World! :)")
  {
    Eval316();
    Eval374();
    assert [Retain(17), Insert("! :)")][1..] == [Insert("! :)")];
    assert "Hello Newer World"[..17] == "Hello Newer World";
    assert "Hello Newer World"[17..] == "";
    assert "Hello Newer World" + "! :)" == "Hello Newer World! :)";
  }

  lemma Eval376()
    ensures Flush(Chars, "#Hello Newer World! :)", "", "") == []
  {
  }

  lemma Eval377()
    requires BaseLen([]) == 0
    ensures ToModsLoop(Chars, [], "", "#Hello Newer World! :)", "", "") == []
  {
    Eval376();
  }

  lemma Eval378()
    ensures Flush(Chars, "", "", "#") == [TextModification(0, 0, "#")]
  {
  }

  lemma Eval379()
    requires BaseLen([Retain(21)]) == 21
    ensures ToModsLoop(Chars, [Retain(21)], "Hello Newer World! :)", "", "", "#") == [TextModification(0, 0, "#")]
  {
    Eval369();
    Eval4();
    assert [Retain(21)][1..] == [];
    ToModsRetainUnfold(Chars, [Retain(21)], "Hello Newer World! :)", "", "", "#");
    assert "Hello Newer World! :)"[..21] == "Hello Newer World! :)";
    assert "Hello Newer World! :)"[21..] == "";
    assert "" + "#" == "#";
    assert "#" + "Hello Newer World! :)" == "#Hello Newer World! :)";
    Eval378();
    Eval377();
    assert [TextModification(0, 0, "#")] + [] == [TextModification(0, 0, "#")];
  }

  lemma Eval380()
    requires BaseLen([Insert("#"), Retain(21)]) == 21
    ensures ToModsLoop(Chars, [Insert("#"), Retain(21)], "Hello Newer World! :)", "", "", "") == [TextModification(0, 0, "#")]
  {
    Eval370();
    Eval369();
    assert [Insert("#"), Retain(21)][1..] == [Retain(21)];
    assert "" + "#" == "#";
    Eval379();
  }

  lemma Eval381()
    ensures UpdateFor(Chars, [Insert("#"), Retain(21)], "Hello Newer World! :)") == Some(Update([TextModification(0, 0, "#")]))
  {
    Eval370();
    Eval380();
  }

  lemma Eval382()
    ensures Build([Retain(6)]) == [Retain(6)]
  {
    assert [Retain(6)][..0] == [];
    Eval52();
    assert AddRetain([], 6) == [Retain(6)];
  }

  lemma Eval383()
    ensures Build([Retain(6), Delete(1)]) == [Retain(6), Delete(1)]
  {
    assert [Retain(6), Delete(1)][..1] == [Retain(6)];
    Eval382();
    assert AddDelete([Retain(6)], 1) == [Retain(6), Delete(1)];
  }

  lemma Eval384()
    ensures Build([Retain(6), Delete(1), Insert("N")]) == [Retain(6), Insert("N"), Delete(1)]
  {
    assert [Retain(6), Delete(1), Insert("N")][..2] == [Retain(6), Delete(1)];
    Eval383();
    assert [Retain(6), Delete(1)][..1] == [Retain(6)];
    assert AddInsert([Retain(6), Delete(1)], "N") == [Retain(6), Insert("N"), Delete(1)];
  }

  lemma Eval385()
    ensures Build([Retain(6), Delete(1), Insert("N"), Retain(2)]) == [Retain(6), Insert("N"), Delete(1), Retain(2)]
  {
    assert [Retain(6), Delete(1), Insert("N"), Retain(2)][..3] == [Retain(6), Delete(1), Insert("N")];
    Eval384();
    assert AddRetain([Retain(6), Insert("N"), Delete(1)], 2) == [Retain(6), Insert("N"), Delete(1), Retain(2)];
  }

  lemma Eval386()
    ensures Build([Retain(6), Delete(1), Insert("N"), Retain(2), Insert("er")]) == [Retain(6), Insert("N"), Delete(1), Retain(2), Insert("er")]
  {
    assert [Retain(6), Delete(1), Insert("N"), Retain(2), Insert("er")][..4] == [Retain(6), Delete(1), Insert("N"), Retain(2)];
    Eval385();
    assert AddInsert([Retain(6), Insert("N"), Delete(1), Retain(2)], "er") == [Retain(6), Insert("N"), Delete(1), Retain(2), Insert("er")];
  }

  lemma Eval387()
    ensures Build([Retain(6), Delete(1), Insert("N"), Retain(2), Insert("er"), Retain(1)]) == [Retain(6), Insert("N"), Delete(1), Retain(2), Insert("er"), Retain(1)]
  {
    assert [Retain(6), Delete(1), Insert("N"), Retain(2), Insert("er"), Retain(1)][..5] == [Retain(6), Delete(1), Insert("N"), Retain(2), Insert("er")];
    Eval386();
    assert AddRetain([Retain(6), Insert("N"), Delete(1), Retain(2), Insert("er")], 1) == [Retain(6), Insert("N"), Delete(1), Retain(2), Insert("er"), Retain(1)];
  }

  lemma Eval388()
    ensures Build([Retain(6), Delete(1), Insert("N"), Retain(2), Insert("er"), Retain(1), Delete(1)]) == [Retain(6), Insert("N"), Delete(1), Retain(2), Insert("er"), Retain(1), Delete(1)]
  {
    assert [Retain(6), Delete(1), Insert("N"), Retain(2), Insert("er"), Retain(1), Delete(1)][..6] == [Retain(6), Delete(1), Insert("N"), Retain(2), Insert("er"), Retain(1)];
    Eval387();
    assert AddDelete([Retain(6), Insert("N"), Delete(1), Retain(2), Insert("er"), Retain(1)], 1) == [Retain(6), Insert("N"), Delete(1), Retain(2), Insert("er"), Retain(1), Delete(1)];
  }

  lemma Eval389()
    ensures Build([Retain(6), Delete(1), Insert("N"), Retain(2), Insert("er"), Retain(1), Delete(1), Insert("W")]) == [Retain(6), Insert("N"), Delete(1), Retain(2), Insert("er"), Retain(1), Insert("W"), Delete(1)]
  {
    assert [Retain(6), Delete(1), Insert("N"), Retain(2), Insert("er"), Retain(1), Delete(1), Insert("W")][..7] == [Retain(6), Delete(1), Insert("N"), Retain(2), Insert("er"), Retain(1), Delete(1)];
    Eval388();
    assert [Retain(6), Insert("N"), Delete(1), Retain(2), Insert("er"), Retain(1), Delete(1)][..6] == [Retain(6), Insert("N"), Delete(1), Retain(2), Insert("er"), Retain(1)];
    assert AddInsert([Retain(6), Insert("N"), Delete(1), Retain(2), Insert("er"), Retain(1), Delete(1)], "W") == [Retain(6), Insert("N"), Delete(1), Retain(2), Insert("er"), Retain(1), Insert("W"), Delete(1)];
  }

  lemma Eval390()
    ensures Build([Retain(6), Delete(1), Insert("N"), Retain(2), Insert("er"), Retain(1), Delete(1), Insert("W"), Retain(8)]) == [Retain(6), Insert("N"), Delete(1), Retain(2), Insert("er"), Retain(1), Insert("W"), Delete(1), Retain(8)]
  {
    assert [Retain(6), Delete(1), Insert("N"), Retain(2), Insert("er"), Retain(1), Delete(1), Insert("W"), Retain(8)][..8] == [Retain(6), Delete(1), Insert("N"), Retain(2), Insert("er"), Retain(1), Delete(1), Insert("W")];
    Eval389();
    assert AddRetain([Retain(6), Insert("N"), Delete(1), Retain(2), Insert("er"), Retain(1), Insert("W"), Delete(1)], 8) == [Retain(6), Insert("N"), Delete(1), Retain(2), Insert("er"), Retain(1), Insert("W"), Delete(1), Retain(8)];
  }

}
