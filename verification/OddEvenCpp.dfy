/** Both outcomes of the C++ odd/even program occur, for every limit of at least 3: the thread
    that prints limit - 2 may test the counter before or after the other thread bumps it. */
module OddEvenCpp {
  import opened Transitions
  import opened OddEven
  import opened OddEvenLaps

  /** Testing early: everything up to the limit is printed. */
  lemma LimitIsReached(limit: int) returns (schedule: seq<nat>, s: State)
    requires limit >= 3
    ensures Reachable(CppLang, limit, schedule, s) && Finished(s) && |s.out| == limit
  {
    var c: nat := limit - 1;
    var w := 1 - c % 2;
    schedule := Laps(CppLang, limit, c);
    schedule, s := HandOver(CppLang, limit, schedule, Ready(c), w);
    schedule, s := Move(CppLang, limit, schedule, s, w);
    schedule, s := HandOver(CppLang, limit, schedule, s, 1 - w);
    schedule, s := Move(CppLang, limit, schedule, s, 1 - w);
  }

  /** Testing late: the last number is missing. */
  lemma OneLessIsReached(limit: int) returns (schedule: seq<nat>, s: State)
    requires limit >= 3
    ensures Reachable(CppLang, limit, schedule, s) && Finished(s) && |s.out| == limit - 1
  {
    var c: nat := limit - 2;
    var w := 1 - c % 2;
    schedule := Laps(CppLang, limit, c);
    schedule, s := HandOver(CppLang, limit, schedule, Ready(c), w);
    schedule, s := HandOver(CppLang, limit, schedule, s, 1 - w);
    schedule, s := Move(CppLang, limit, schedule, s, 1 - w);
    schedule, s := Move(CppLang, limit, schedule, s, w);
  }

  /** Every finished run prints up to the limit. */
  ghost predicate AlwaysPrintsAll(limit: int) {
    forall schedule :: Exec(Machine(CppLang, limit), Init(), schedule).Some? ==>
      var s := Exec(Machine(CppLang, limit), Init(), schedule).value;
      Finished(s) ==> |s.out| == Last(limit)
  }

  /** Which is so exactly for limits up to 2. */
  lemma WhenAlwaysPrintsAll(limit: int)
    ensures AlwaysPrintsAll(limit) <==> limit <= 2
  {
    if limit > 2 {
      var schedule, s := OneLessIsReached(limit);
      assert Exec(Machine(CppLang, limit), Init(), schedule).Some?;
    } else {
      forall schedule | Exec(Machine(CppLang, limit), Init(), schedule).Some?
        ensures
          var s := Exec(Machine(CppLang, limit), Init(), schedule).value;
          Finished(s) ==> |s.out| == Last(limit)
      {
        var s := Exec(Machine(CppLang, limit), Init(), schedule).value;
        if Finished(s) {
          PrintsUpToLimitOrOneLess(limit, schedule, s);
        }
      }
    }
  }
}
