/** Worked planning cycles, checked against the model. */
module EngineExamples {
  import opened Wrappers
  import opened Lexico
  import opened Sums
  import opened StableSort
  import opened EnginePcp

  function ScenarioRows(): seq<Row> {
    [Row("A", "R", 5.0, 1, 1), Row("B", "R", 4.0, 1, 2), Row("C", "R", 2.0, 1, 3)]
  }

  function ScenarioRanking(): seq<Ranked> {
    var rows := ScenarioRows();
    [Ranked(rows[0], 5.0, 1, 5.0, 0.0), Ranked(rows[1], 4.0, 2, 9.0, 1.0), Ranked(rows[2], 2.0, 3, 11.0, 3.0)]
  }

  lemma ScenarioBottleneck()
    ensures Gargalo(Settings(8.0, 1.0, 0.0), ScenarioRows()) == "R"
  {
    var rows := ScenarioRows();
    var cfg := Settings(8.0, 1.0, 0.0);
    assert ResourceSet(rows) == {"R"};
    BottleneckChoice(cfg, rows);
    assert IsBottleneck(cfg, rows, "R");
    BottleneckUnique(cfg, rows, "R", Gargalo(cfg, rows));
  }

  lemma ScenarioTimes()
    ensures PrefixSums(Project(ScenarioRows(), Ajustado(Settings(8.0, 1.0, 0.0)))) == [5.0, 9.0, 11.0]
  {
    var tempos := Project(ScenarioRows(), Ajustado(Settings(8.0, 1.0, 0.0)));
    assert tempos == [5.0, 4.0, 2.0];
    PrefixSumsAreSums(tempos);
    assert tempos[..1] == [5.0];
    assert tempos[..2] == [5.0, 4.0];
    assert tempos[..3] == tempos;
    assert Sum([2.0]) == 2.0 + Sum([]);
    assert Sum([4.0, 2.0]) == 4.0 + Sum([2.0]);
    assert Sum([5.0, 4.0]) == 5.0 + Sum([4.0]);
    assert Sum([4.0]) == 4.0 + Sum([]);
  }

  lemma ScenarioQueue()
    ensures EddQueue(ScenarioRows(), "R") == ScenarioRows()
  {
    var rows := ScenarioRows();
    assert rows[1..][1..][1..] == [];
    assert OnResource(rows, "R") == rows;
    SortBySortedIsIdentity(rows, DueDate);
  }

  lemma ScenarioLine(i: nat)
    requires i < 3
    ensures RankQueue(Settings(8.0, 1.0, 0.0), ScenarioRows())[i] == ScenarioRanking()[i]
  {
    ScenarioTimes();
    RankQueueAt(Settings(8.0, 1.0, 0.0), ScenarioRows(), i);
  }

  lemma ScenarioRankQueue()
    ensures RankQueue(Settings(8.0, 1.0, 0.0), ScenarioRows()) == ScenarioRanking()
  {
    var rk := RankQueue(Settings(8.0, 1.0, 0.0), ScenarioRows());
    forall i | 0 <= i < 3
      ensures rk[i] == ScenarioRanking()[i]
    {
      ScenarioLine(i);
    }
  }

  lemma ScenarioRanked()
    ensures Ranking(Settings(8.0, 1.0, 0.0), ScenarioRows(), "R") == ScenarioRanking()
  {
    ScenarioQueue();
    ScenarioRankQueue();
  }

  /** Three orders on one resource with 8 available hours, due on days 1, 2 and 3
      with adjusted times 5, 4 and 2: they run in due-date order, accumulate
      5, 9 and 11 hours, are late by 0, 1 and 3 hours, 4 hours in all. */
  lemma SingleResourceCycle()
    ensures ExecutarCiclo(Frame(RequiredColumns, ScenarioRows()), map[])
         == Success(Plano("R", 4.0, ScenarioRanking()))
  {
    var cfg := Settings(8.0, 1.0, 0.0);
    var frame := Frame(RequiredColumns, ScenarioRows());
    ScenarioSucceeds();
    var plano := ExecutarCiclo(frame, map[]).value;
    assert SettingsOf(map[]) == cfg;
    CyclePlan(frame, map[]);
    ScenarioBottleneck();
    ScenarioRanked();
    ScenarioDelay();
    assert plano.gargalo == "R";
    assert plano.ranking == ScenarioRanking();
    assert plano.atrasoTotal == 4.0;
  }

  lemma ScenarioSucceeds()
    ensures ExecutarCiclo(Frame(RequiredColumns, ScenarioRows()), map[]).Success?
  {
  }

  lemma ScenarioDelay()
    ensures AtrasoTotal(ScenarioRanking()) == 4.0
  {
    var rk := ScenarioRanking();
    assert Project(rk, RankedDelay) == [0.0, 1.0, 3.0];
    assert Sum([3.0]) == 3.0 + Sum([]);
    assert Sum([1.0, 3.0]) == 1.0 + Sum([3.0]);
  }

  function TieRows(): seq<Row> {
    [Row("P1", "CNC_2", 7.2, 1, 1), Row("P2", "CNC_1", 7.2, 1, 1)]
  }

  lemma TieLoads()
    ensures Utilization(Settings(8.0, 1.0, 0.0), TieRows(), "CNC_1") == 0.9
    ensures Utilization(Settings(8.0, 1.0, 0.0), TieRows(), "CNC_2") == 0.9
  {
    var rows := TieRows();
    var cfg := Settings(8.0, 1.0, 0.0);
    assert OnResource(rows, "CNC_1") == [rows[1]];
    assert OnResource(rows, "CNC_2") == [rows[0]];
    assert Project([rows[1]], Ajustado(cfg)) == [7.2];
    assert Project([rows[0]], Ajustado(cfg)) == [7.2];
    assert Sum([7.2]) == 7.2 + Sum([]);
  }

  lemma TieResources()
    ensures ResourceSet(TieRows()) == {"CNC_1", "CNC_2"}
  {
    var rows := TieRows();
    assert rows[0].recurso == "CNC_2" && rows[1].recurso == "CNC_1";
  }

  lemma TieNames()
    ensures StrLt("CNC_1", "CNC_2")
  {
    assert "CNC_1" == ['C'] + "NC_1" && "CNC_2" == ['C'] + "NC_2";
  }

  lemma TieIsBottleneck()
    ensures IsBottleneck(Settings(8.0, 1.0, 0.0), TieRows(), "CNC_1")
  {
    TieResources();
    TieLoads();
    TieNames();
  }

  /** Two resources tied at 90% utilisation: the smaller name is the bottleneck. */
  lemma TieGoesToSmallerName()
    ensures Gargalo(Settings(8.0, 1.0, 0.0), TieRows()) == "CNC_1"
  {
    var cfg := Settings(8.0, 1.0, 0.0);
    TieIsBottleneck();
    BottleneckChoice(cfg, TieRows());
    BottleneckUnique(cfg, TieRows(), "CNC_1", Gargalo(cfg, TieRows()));
  }
}
