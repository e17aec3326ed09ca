/** The scenarios of smartshare/src/client/main.rs replayed on the model of
    the client.  Each scenario sends the same messages in the same order and
    states what the scenario expects to receive on each side; what a
    scenario leaves unread is not constrained.  Each step lemma states the
    exact outcome of one message. */
module ClientScenarios {
  import opened Common
  import opened OperationSeq
  import opened Units
  import opened Protocol
  import opened Client
  import opened ClientScenarioEval

  // ---------------------------------------------------------------------
  // simple_connection (smartshare/src/client/main.rs:128-146)
  // ---------------------------------------------------------------------

  const SimpleConnectionState1: Client := Client("Hello world", "Hello world", 0, Chars, Synced, Synced)

  lemma SimpleConnectionStep1()
    ensures OnServer(New(0, Chars), ServerFile("Hello world", 0)) == Some(Step(SimpleConnectionState1, [], [File("Hello world")]))
  {
  }

  lemma SimpleConnection()
    ensures
      var s1 := OnServer(New(0, Chars), ServerFile("Hello world", 0));
      s1.Some? && s1.value.toIde == [File("Hello world")]
  {
    SimpleConnectionStep1();
  }

  // ---------------------------------------------------------------------
  // first_connection (smartshare/src/client/main.rs:148-171)
  // ---------------------------------------------------------------------

  const FirstConnectionState1: Client := Client("", "", 0, Chars, Synced, Synced)

  lemma FirstConnectionStep1()
    ensures OnServer(New(0, Chars), ServerRequestFile) == Some(Step(FirstConnectionState1, [], [RequestFile]))
  {
  }

  const FirstConnectionState2: Client := Client("Hello world", "Hello world", 0, Chars, Synced, Synced)

  lemma FirstConnectionStep2()
    ensures OnIde(FirstConnectionState1, File("Hello world")) == Some(Step(FirstConnectionState2, [ServerFile("Hello world", 0)], []))
  {
  }

  lemma FirstConnection()
    ensures
      var s1 := OnServer(New(0, Chars), ServerRequestFile);
      s1.Some? && s1.value.toIde == [RequestFile] &&
      var s2 := OnIde(s1.value.client, File("Hello world"));
      s2.Some? && s2.value.toServer == [ServerFile("Hello world", 0)]
  {
    FirstConnectionStep1();
    FirstConnectionStep2();
  }

  // ---------------------------------------------------------------------
  // ide_change_chars (smartshare/src/client/main.rs:173-234)
  // ---------------------------------------------------------------------

  const IdeChangeCharsState1: Client := Client("çalùt monde", "çalùt monde", 4, Chars, Synced, Synced)

  lemma IdeChangeCharsStep1()
    ensures OnServer(New(0, Chars), ServerFile("çalùt monde", 4)) == Some(Step(IdeChangeCharsState1, [], [File("çalùt monde")]))
  {
  }

  const IdeChangeCharsState2: Client := Client("Çalùt Monde", "Çalùt Monde", 4, Chars, Awaiting([Insert("Ç"), Delete(1), Retain(5), Insert("M"), Delete(1), Retain(4)], None), Synced)

  lemma IdeChangeCharsStep2()
    ensures OnIde(IdeChangeCharsState1, Update([TextModification(0, 1, "Ç"), TextModification(6, 1, "M")])) == Some(Step(IdeChangeCharsState2, [ServerUpdate(ModifRequest([Insert("Ç"), Delete(1), Retain(5), Insert("M"), Delete(1), Retain(4)], 4))], [Ack]))
  {
    Eval44();
    Eval50();
    Eval51();
  }

  const IdeChangeCharsState3: Client := Client("Çalùt Monde", "Çalùt Monde", 5, Chars, Synced, Synced)

  lemma IdeChangeCharsStep3()
    ensures OnServer(IdeChangeCharsState2, ServerAck) == Some(Step(IdeChangeCharsState3, [], []))
  {
  }

  lemma IdeChangeChars()
    ensures
      var s1 := OnServer(New(0, Chars), ServerFile("çalùt monde", 4));
      s1.Some? && s1.value.toIde == [File("çalùt monde")] &&
      var s2 := OnIde(s1.value.client, Update([TextModification(0, 1, "Ç"), TextModification(6, 1, "M")]));
      s2.Some? && s2.value.toServer == [ServerUpdate(ModifRequest(Build([Insert("Ç"), Delete(1), Retain(5), Insert("M"), Delete(1), Retain(4)]), 4))] && s2.value.toIde == [Ack] &&
      var s3 := OnServer(s2.value.client, ServerAck);
      s3.Some?
  {
    Eval58();
    IdeChangeCharsStep1();
    IdeChangeCharsStep2();
    IdeChangeCharsStep3();
  }

  // ---------------------------------------------------------------------
  // ide_change_bytes (smartshare/src/client/main.rs:236-297)
  // ---------------------------------------------------------------------

  const IdeChangeBytesState1: Client := Client("çalùt monde", "çalùt monde", 4, Bytes, Synced, Synced)

  lemma IdeChangeBytesStep1()
    ensures OnServer(New(0, Bytes), ServerFile("çalùt monde", 4)) == Some(Step(IdeChangeBytesState1, [], [File("çalùt monde")]))
  {
  }

  const IdeChangeBytesState2: Client := Client("Çalùt Monde", "Çalùt Monde", 4, Bytes, Awaiting([Insert("Ç"), Delete(1), Retain(5), Insert("M"), Delete(1), Retain(4)], None), Synced)

  lemma IdeChangeBytesStep2()
    ensures OnIde(IdeChangeBytesState1, Update([TextModification(0, 2, "Ç"), TextModification(8, 1, "M")])) == Some(Step(IdeChangeBytesState2, [ServerUpdate(ModifRequest([Insert("Ç"), Delete(1), Retain(5), Insert("M"), Delete(1), Retain(4)], 4))], [Ack]))
  {
    Eval84();
    Eval50();
    Eval85();
  }

  const IdeChangeBytesState3: Client := Client("Çalùt Monde", "Çalùt Monde", 5, Bytes, Synced, Synced)

  lemma IdeChangeBytesStep3()
    ensures OnServer(IdeChangeBytesState2, ServerAck) == Some(Step(IdeChangeBytesState3, [], []))
  {
  }

  lemma IdeChangeBytes()
    ensures
      var s1 := OnServer(New(0, Bytes), ServerFile("çalùt monde", 4));
      s1.Some? && s1.value.toIde == [File("çalùt monde")] &&
      var s2 := OnIde(s1.value.client, Update([TextModification(0, 2, "Ç"), TextModification(8, 1, "M")]));
      s2.Some? && s2.value.toServer == [ServerUpdate(ModifRequest(Build([Insert("Ç"), Delete(1), Retain(5), Insert("M"), Delete(1), Retain(4)]), 4))] && s2.value.toIde == [Ack] &&
      var s3 := OnServer(s2.value.client, ServerAck);
      s3.Some?
  {
    Eval58();
    IdeChangeBytesStep1();
    IdeChangeBytesStep2();
    IdeChangeBytesStep3();
  }

  // ---------------------------------------------------------------------
  // server_change_chars (smartshare/src/client/main.rs:299-358)
  // ---------------------------------------------------------------------

  const ServerChangeCharsState1: Client := Client("çalùt monde", "çalùt monde", 4, Chars, Synced, Synced)

  lemma ServerChangeCharsStep1()
    ensures OnServer(New(0, Chars), ServerFile("çalùt monde", 4)) == Some(Step(ServerChangeCharsState1, [], [File("çalùt monde")]))
  {
  }

  const ServerChangeCharsState2: Client := Client("Çalùt Monde", "çalùt monde", 5, Chars, Synced, Awaiting([Insert("Ç"), Delete(1), Retain(5), Insert("M"), Delete(1), Retain(4)], None))

  lemma ServerChangeCharsStep2()
    ensures OnServer(ServerChangeCharsState1, ServerUpdate(ModifRequest([Insert("Ç"), Delete(1), Retain(5), Insert("M"), Delete(1), Retain(4)], 5))) == Some(Step(ServerChangeCharsState2, [], [Update([TextModification(0, 1, "Ç"), TextModification(6, 1, "M")])]))
  {
    Eval86();
    Eval50();
    Eval97();
  }

  const ServerChangeCharsState3: Client := Client("Çalùt Monde", "Çalùt Monde", 5, Chars, Synced, Synced)

  lemma ServerChangeCharsStep3()
    ensures OnIde(ServerChangeCharsState2, Ack) == Some(Step(ServerChangeCharsState3, [], []))
  {
    Eval50();
  }

  lemma ServerChangeChars()
    ensures
      var s1 := OnServer(New(0, Chars), ServerFile("çalùt monde", 4));
      s1.Some? && s1.value.toIde == [File("çalùt monde")] &&
      var s2 := OnServer(s1.value.client, ServerUpdate(ModifRequest(Build([Insert("Ç"), Delete(1), Retain(5), Insert("M"), Delete(1), Retain(4)]), 5)));
      s2.Some? && s2.value.toIde == [Update([TextModification(0, 1, "Ç"), TextModification(6, 1, "M")])] &&
      var s3 := OnIde(s2.value.client, Ack);
      s3.Some?
  {
    Eval58();
    ServerChangeCharsStep1();
    ServerChangeCharsStep2();
    ServerChangeCharsStep3();
  }

  // ---------------------------------------------------------------------
  // server_change_bytes (smartshare/src/client/main.rs:360-419)
  // ---------------------------------------------------------------------

  const ServerChangeBytesState1: Client := Client("çalùt monde", "çalùt monde", 4, Bytes, Synced, Synced)

  lemma ServerChangeBytesStep1()
    ensures OnServer(New(0, Bytes), ServerFile("çalùt monde", 4)) == Some(Step(ServerChangeBytesState1, [], [File("çalùt monde")]))
  {
  }

  const ServerChangeBytesState2: Client := Client("Çalùt Monde", "çalùt monde", 5, Bytes, Synced, Awaiting([Insert("Ç"), Delete(1), Retain(5), Insert("M"), Delete(1), Retain(4)], None))

  lemma ServerChangeBytesStep2()
    ensures OnServer(ServerChangeBytesState1, ServerUpdate(ModifRequest([Insert("Ç"), Delete(1), Retain(5), Insert("M"), Delete(1), Retain(4)], 5))) == Some(Step(ServerChangeBytesState2, [], [Update([TextModification(0, 2, "Ç"), TextModification(8, 1, "M")])]))
  {
    Eval86();
    Eval50();
    Eval117();
  }

  const ServerChangeBytesState3: Client := Client("Çalùt Monde", "Çalùt Monde", 5, Bytes, Synced, Synced)

  lemma ServerChangeBytesStep3()
    ensures OnIde(ServerChangeBytesState2, Ack) == Some(Step(ServerChangeBytesState3, [], []))
  {
    Eval50();
  }

  lemma ServerChangeBytes()
    ensures
      var s1 := OnServer(New(0, Bytes), ServerFile("çalùt monde", 4));
      s1.Some? && s1.value.toIde == [File("çalùt monde")] &&
      var s2 := OnServer(s1.value.client, ServerUpdate(ModifRequest(Build([Insert("Ç"), Delete(1), Retain(5), Insert("M"), Delete(1), Retain(4)]), 5)));
      s2.Some? && s2.value.toIde == [Update([TextModification(0, 2, "Ç"), TextModification(8, 1, "M")])] &&
      var s3 := OnIde(s2.value.client, Ack);
      s3.Some?
  {
    Eval58();
    ServerChangeBytesStep1();
    ServerChangeBytesStep2();
    ServerChangeBytesStep3();
  }

  // ---------------------------------------------------------------------
  // ide_conflict (smartshare/src/client/main.rs:421-511)
  // ---------------------------------------------------------------------

  const IdeConflictState1: Client := Client("Hello world", "Hello world", 4, Chars, Synced, Synced)

  lemma IdeConflictStep1()
    ensures OnServer(New(0, Chars), ServerFile("Hello world", 4)) == Some(Step(IdeConflictState1, [], [File("Hello world")]))
  {
  }

  const IdeConflictState2: Client := Client("Hello world!", "Hello world", 5, Chars, Synced, Awaiting([Retain(11), Insert("!")], None))

  lemma IdeConflictStep2()
    ensures OnServer(IdeConflictState1, ServerUpdate(ModifRequest([Retain(11), Insert("!")], 5))) == Some(Step(IdeConflictState2, [], [Update([TextModification(11, 0, "!")])]))
  {
    Eval120();
    Eval124();
    Eval130();
  }

  const IdeConflictState3: Client := Client("Hello new world!", "Hello new world", 5, Chars, Awaiting([Retain(5), Insert(" new"), Retain(7)], None), Awaiting([Retain(15), Insert("!")], None))

  lemma IdeConflictStep3()
    ensures OnIde(IdeConflictState2, Update([TextModification(5, 0, " new")])) == Some(Step(IdeConflictState3, [ServerUpdate(ModifRequest([Retain(5), Insert(" new"), Retain(7)], 5))], [Ack, Update([TextModification(15, 0, "!")])]))
  {
    Eval147();
    Eval139();
    Eval161();
    Eval167();
  }

  const IdeConflictState4: Client := Client("Hello new world!", "Hello new world!", 5, Chars, Awaiting([Retain(5), Insert(" new"), Retain(7)], None), Synced)

  lemma IdeConflictStep4()
    ensures OnIde(IdeConflictState3, Ack) == Some(Step(IdeConflictState4, [], []))
  {
    Eval168();
  }

  const IdeConflictState5: Client := Client("Hello new world!", "Hello new world!", 6, Chars, Synced, Synced)

  lemma IdeConflictStep5()
    ensures OnServer(IdeConflictState4, ServerAck) == Some(Step(IdeConflictState5, [], []))
  {
  }

  lemma IdeConflict()
    ensures
      var s1 := OnServer(New(0, Chars), ServerFile("Hello world", 4));
      s1.Some? && s1.value.toIde == [File("Hello world")] &&
      var s2 := OnServer(s1.value.client, ServerUpdate(ModifRequest(Build([Retain(11), Insert("!")]), 5)));
      s2.Some? && s2.value.toIde == [Update([TextModification(11, 0, "!")])] &&
      var s3 := OnIde(s2.value.client, Update([TextModification(5, 0, " new")]));
      s3.Some? && s3.value.toServer == [ServerUpdate(ModifRequest(Build([Retain(5), Insert(" new"), Retain(7)]), 5))] && s3.value.toIde == [Ack, Update([TextModification(15, 0, "!")])] &&
      var s4 := OnIde(s3.value.client, Ack);
      s4.Some? &&
      var s5 := OnServer(s4.value.client, ServerAck);
      s5.Some?
  {
    Eval119();
    Eval171();
    IdeConflictStep1();
    IdeConflictStep2();
    IdeConflictStep3();
    IdeConflictStep4();
    IdeConflictStep5();
  }

  // ---------------------------------------------------------------------
  // server_conflict (smartshare/src/client/main.rs:513-589)
  // ---------------------------------------------------------------------

  const ServerConflictState1: Client := Client("Hello world", "Hello world", 42, Chars, Synced, Synced)

  lemma ServerConflictStep1()
    ensures OnServer(New(0, Chars), ServerFile("Hello world", 42)) == Some(Step(ServerConflictState1, [], [File("Hello world")]))
  {
  }

  const ServerConflictState2: Client := Client("Hello new world", "Hello new world", 42, Chars, Awaiting([Retain(5), Insert(" new"), Retain(6)], None), Synced)

  lemma ServerConflictStep2()
    ensures OnIde(ServerConflictState1, Update([TextModification(5, 0, " new")])) == Some(Step(ServerConflictState2, [ServerUpdate(ModifRequest([Retain(5), Insert(" new"), Retain(6)], 42))], [Ack]))
  {
    Eval147();
    Eval139();
    Eval172();
  }

  const ServerConflictState3: Client := Client("Hello new world!", "Hello new world", 43, Chars, Awaiting([Retain(5), Insert(" new"), Retain(7)], None), Awaiting([Retain(15), Insert("!")], None))

  lemma ServerConflictStep3()
    ensures OnServer(ServerConflictState2, ServerUpdate(ModifRequest([Retain(11), Insert("!")], 43))) == Some(Step(ServerConflictState3, [], [Update([TextModification(15, 0, "!")])]))
  {
    Eval173();
    Eval168();
    Eval160();
  }

  const ServerConflictState4: Client := Client("Hello new world!", "Hello new world!", 43, Chars, Awaiting([Retain(5), Insert(" new"), Retain(7)], None), Synced)

  lemma ServerConflictStep4()
    ensures OnIde(ServerConflictState3, Ack) == Some(Step(ServerConflictState4, [], []))
  {
    Eval168();
  }

  const ServerConflictState5: Client := Client("Hello new world!", "Hello new world!", 44, Chars, Synced, Synced)

  lemma ServerConflictStep5()
    ensures OnServer(ServerConflictState4, ServerAck) == Some(Step(ServerConflictState5, [], []))
  {
  }

  lemma ServerConflict()
    ensures
      var s1 := OnServer(New(0, Chars), ServerFile("Hello world", 42));
      s1.Some? && s1.value.toIde == [File("Hello world")] &&
      var s2 := OnIde(s1.value.client, Update([TextModification(5, 0, " new")]));
      s2.Some? && s2.value.toServer == [ServerUpdate(ModifRequest(Build([Retain(5), Insert(" new"), Retain(6)]), 42))] && s2.value.toIde == [Ack] &&
      var s3 := OnServer(s2.value.client, ServerUpdate(ModifRequest(Build([Retain(11), Insert("!")]), 43)));
      s3.Some? && s3.value.toIde == [Update([TextModification(15, 0, "!")])] &&
      var s4 := OnIde(s3.value.client, Ack);
      s4.Some? &&
      var s5 := OnServer(s4.value.client, ServerAck);
      s5.Some?
  {
    Eval174();
    Eval119();
    ServerConflictStep1();
    ServerConflictStep2();
    ServerConflictStep3();
    ServerConflictStep4();
    ServerConflictStep5();
  }

  // ---------------------------------------------------------------------
  // multilple_conflicts (smartshare/src/client/main.rs:591-792)
  // ---------------------------------------------------------------------

  const MultipleConflictsState1: Client := Client("Hello world", "Hello world", 42, Chars, Synced, Synced)

  lemma MultipleConflictsStep1()
    ensures OnServer(New(0, Chars), ServerFile("Hello world", 42)) == Some(Step(MultipleConflictsState1, [], [File("Hello world")]))
  {
  }

  const MultipleConflictsState2: Client := Client("Hello new world", "Hello new world", 42, Chars, Awaiting([Retain(5), Insert(" new"), Retain(6)], None), Synced)

  lemma MultipleConflictsStep2()
    ensures OnIde(MultipleConflictsState1, Update([TextModification(5, 0, " new")])) == Some(Step(MultipleConflictsState2, [ServerUpdate(ModifRequest([Retain(5), Insert(" new"), Retain(6)], 42))], [Ack]))
  {
    Eval147();
    Eval139();
    Eval172();
  }

  const MultipleConflictsState3: Client := Client("Hello new world!", "Hello new world", 43, Chars, Awaiting([Retain(5), Insert(" new"), Retain(7)], None), Awaiting([Retain(15), Insert("!")], None))

  lemma MultipleConflictsStep3()
    ensures OnServer(MultipleConflictsState2, ServerUpdate(ModifRequest([Retain(11), Insert("!")], 43))) == Some(Step(MultipleConflictsState3, [], [Update([TextModification(15, 0, "!")])]))
  {
    Eval173();
    Eval168();
    Eval160();
  }

  const MultipleConflictsState4: Client := Client("Hello New World!", "Hello New World", 43, Chars, Awaiting([Retain(5), Insert(" new"), Retain(7)], Some([Retain(6), Insert("N"), Delete(1), Retain(3), Insert("W"), Delete(1), Retain(5)])), Awaiting([Retain(15), Insert("!")], None))

  lemma MultipleConflictsStep4()
    ensures OnIde(MultipleConflictsState3, Update([TextModification(6, 1, "N"), TextModification(10, 1, "W")])) == Some(Step(MultipleConflictsState4, [], [Ack, Update([TextModification(15, 0, "!")])]))
  {
    Eval218();
    Eval226();
    Eval243();
    Eval257();
    Eval258();
  }

  const MultipleConflictsState5: Client := Client("Hello New World! :)", "Hello New World", 44, Chars, Awaiting([Retain(5), Insert(" new"), Retain(10)], Some([Retain(6), Insert("N"), Delete(1), Retain(3), Insert("W"), Delete(1), Retain(8)])), Awaiting([Retain(15), Insert("!")], Some([Retain(16), Insert(" :)")])))

  lemma MultipleConflictsStep5()
    ensures OnServer(MultipleConflictsState4, ServerUpdate(ModifRequest([Retain(12), Insert(" :)")], 44))) == Some(Step(MultipleConflictsState5, [], []))
  {
    Eval280();
    Eval282();
    Eval283();
  }

  const MultipleConflictsState6: Client := Client("Hello Newer World! :)", "Hello Newer World", 44, Chars, Awaiting([Retain(5), Insert(" new"), Retain(10)], Some([Retain(6), Insert("N"), Delete(1), Retain(2), Insert("er"), Retain(1), Insert("W"), Delete(1), Retain(8)])), Awaiting([Retain(17), Insert("! :)")], None))

  lemma MultipleConflictsStep6()
    ensures OnIde(MultipleConflictsState5, Update([TextModification(9, 0, "er")])) == Some(Step(MultipleConflictsState6, [], [Ack, Update([TextModification(17, 0, "! :)")])]))
  {
    Eval299();
    Eval291();
    Eval322();
    Eval327();
    Eval344();
  }

  const MultipleConflictsState7: Client := Client("Hello Newer World! :)", "Hello Newer World", 45, Chars, Awaiting([Retain(6), Insert("N"), Delete(1), Retain(2), Insert("er"), Retain(1), Insert("W"), Delete(1), Retain(8)], None), Awaiting([Retain(17), Insert("! :)")], None))

  lemma MultipleConflictsStep7()
    ensures OnServer(MultipleConflictsState6, ServerAck) == Some(Step(MultipleConflictsState7, [ServerUpdate(ModifRequest([Retain(6), Insert("N"), Delete(1), Retain(2), Insert("er"), Retain(1), Insert("W"), Delete(1), Retain(8)], 45))], []))
  {
  }

  const MultipleConflictsState8: Client := Client("#Hello Newer World! :)", "Hello Newer World", 46, Chars, Awaiting([Retain(7), Insert("N"), Delete(1), Retain(2), Insert("er"), Retain(1), Insert("W"), Delete(1), Retain(8)], None), Awaiting([Retain(17), Insert("! :)")], Some([Insert("#"), Retain(21)])))

  lemma MultipleConflictsStep8()
    ensures OnServer(MultipleConflictsState7, ServerUpdate(ModifRequest([Insert("#"), Retain(19)], 46))) == Some(Step(MultipleConflictsState8, [], []))
  {
    Eval368();
    Eval372();
    Eval373();
  }

  const MultipleConflictsState9: Client := Client("#Hello Newer World! :)", "Hello Newer World! :)", 46, Chars, Awaiting([Retain(7), Insert("N"), Delete(1), Retain(2), Insert("er"), Retain(1), Insert("W"), Delete(1), Retain(8)], None), Awaiting([Insert("#"), Retain(21)], None))

  lemma MultipleConflictsStep9()
    ensures OnIde(MultipleConflictsState8, Ack) == Some(Step(MultipleConflictsState9, [], [Update([TextModification(0, 0, "#")])]))
  {
    Eval375();
    Eval381();
  }

  const MultipleConflictsState10: Client := Client("#Hello Newer World! :)", "Hello Newer World! :)", 47, Chars, Synced, Awaiting([Insert("#"), Retain(21)], None))

  lemma MultipleConflictsStep10()
    ensures OnServer(MultipleConflictsState9, ServerAck) == Some(Step(MultipleConflictsState10, [], []))
  {
  }

  lemma MultipleConflicts()
    ensures
      var s1 := OnServer(New(0, Chars), ServerFile("Hello world", 42));
      s1.Some? && s1.value.toIde == [File("Hello world")] &&
      var s2 := OnIde(s1.value.client, Update([TextModification(5, 0, " new")]));
      s2.Some? && s2.value.toServer == [ServerUpdate(ModifRequest(Build([Retain(5), Insert(" new"), Retain(6)]), 42))] && s2.value.toIde == [Ack] &&
      var s3 := OnServer(s2.value.client, ServerUpdate(ModifRequest(Build([Retain(11), Insert("!")]), 43)));
      s3.Some? && s3.value.toIde == [Update([TextModification(15, 0, "!")])] &&
      var s4 := OnIde(s3.value.client, Update([TextModification(6, 1, "N"), TextModification(10, 1, "W")]));
      s4.Some? && s4.value.toServer == [] && s4.value.toIde == [Ack, Update([TextModification(15, 0, "!")])] &&
      var s5 := OnServer(s4.value.client, ServerUpdate(ModifRequest(Build([Retain(12), Insert(" :)")]), 44)));
      s5.Some? && s5.value.toIde == [] &&
      var s6 := OnIde(s5.value.client, Update([TextModification(9, 0, "er")]));
      s6.Some? && s6.value.toServer == [] && s6.value.toIde == [Ack, Update([TextModification(17, 0, "! :)")])] &&
      var s7 := OnServer(s6.value.client, ServerAck);
      s7.Some? && s7.value.toServer == [ServerUpdate(ModifRequest(Build([Retain(6), Delete(1), Insert("N"), Retain(2), Insert("er"), Retain(1), Delete(1), Insert("W"), Retain(8)]), 45))] &&
      var s8 := OnServer(s7.value.client, ServerUpdate(ModifRequest(Build([Insert("#"), Retain(19)]), 46)));
      s8.Some? && s8.value.toIde == [] &&
      var s9 := OnIde(s8.value.client, Ack);
      s9.Some? && s9.value.toIde == [Update([TextModification(0, 0, "#")])] &&
      var s10 := OnServer(s9.value.client, ServerAck);
      s10.Some?
  {
    Eval174();
    Eval119();
    Eval260();
    Eval390();
    Eval346();
    MultipleConflictsStep1();
    MultipleConflictsStep2();
    MultipleConflictsStep3();
    MultipleConflictsStep4();
    MultipleConflictsStep5();
    MultipleConflictsStep6();
    MultipleConflictsStep7();
    MultipleConflictsStep8();
    MultipleConflictsStep9();
    MultipleConflictsStep10();
  }

}
