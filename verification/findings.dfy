/**
  Step one of calculateRiskAssessment (lib/dsfa.ts): eight fixed triggers, run in a
  fixed order, each adding at most one finding and at most one recommendation.
  Likelihood, impact and severity of every finding are literals of the source; they
  are not derived from each other.
 */
module Findings {
  import opened Options
  import opened DsfaTypes
  import opened PrioritySort

  /** The singleton `[x]` when `c` holds, the empty sequence otherwise: one guarded `push`. */
  function When<T>(c: bool, x: T): (r: seq<T>)
    ensures |r| <= 1
  {
    if c then [x] else []
  }

  /** The finding each trigger adds, with the literal likelihood, impact and severity of the source. */
  function RiskRecord(id: RiskId): (r: Risk)
    ensures r.id == id
  {
    match id
    case Risk1 => Risk(Risk1, Confidentiality, "risk-1.description", High, High, High,
                       ["risk-1.mitigation-1", "risk-1.mitigation-2", "risk-1.mitigation-3"])
    case Risk2 => Risk(Risk2, Transparency, "risk-2.description", Medium, High, High,
                       ["risk-2.mitigation-1", "risk-2.mitigation-2", "risk-2.mitigation-3"])
    case Risk3 => Risk(Risk3, Lawfulness, "risk-3.description", Medium, High, High,
                       ["risk-3.mitigation-1", "risk-3.mitigation-2", "risk-3.mitigation-3"])
    case Risk4 => Risk(Risk4, Confidentiality, "risk-4.description", Medium, High, High,
                       ["risk-4.mitigation-1", "risk-4.mitigation-2", "risk-4.mitigation-3"])
    case Risk5 => Risk(Risk5, Transparency, "risk-5.description", High, Medium, High,
                       ["risk-5.mitigation-1", "risk-5.mitigation-2", "risk-5.mitigation-3"])
    case Risk6 => Risk(Risk6, Confidentiality, "risk-6.description", Medium, High, Medium,
                       ["risk-6.mitigation-1", "risk-6.mitigation-2"])
    case Risk7 => Risk(Risk7, Confidentiality, "risk-7.description", Medium, Medium, Medium,
                       ["risk-7.mitigation-1", "risk-7.mitigation-2", "risk-7.mitigation-3"])
  }

  /** The recommendation each recommending trigger adds. */
  function RecRecord(id: RecId): (r: Recommendation)
    ensures r.id == id
  {
    match id
    case Rec1 => Recommendation(Rec1, High, "rec-1.title", "rec-1.description", Some("Art. 22 Abs. 1 DSG"))
    case Rec2 => Recommendation(Rec2, High, "rec-2.title", "rec-2.description", Some("Art. 21 DSG"))
    case Rec3 => Recommendation(Rec3, High, "rec-3.title", "rec-3.description", Some("Art. 16 DSG"))
    case Rec4 => Recommendation(Rec4, Medium, "rec-4.title", "rec-4.description", Some("Art. 8 DSG"))
    case Rec5 => Recommendation(Rec5, Medium, "rec-5.title", "rec-5.description", Some("Art. 6 Abs. 3 DSG"))
  }

  /** The condition of the trigger that adds each finding. */
  predicate Fires(d: DsfaData, id: RiskId)
  {
    match id
    case Risk1 => d.sensitiveData
    case Risk2 => d.largeScaleProcessing
    case Risk3 => d.automatedDecisionMaking
    case Risk4 => d.thirdCountryTransfer
    case Risk5 => d.systematicMonitoring
    case Risk6 => !d.encryption
    case Risk7 => !d.accessControls
  }

  /** The condition of the trigger that adds each recommendation. */
  predicate RecFires(d: DsfaData, id: RecId)
  {
    match id
    case Rec1 => d.sensitiveData
    case Rec2 => d.automatedDecisionMaking
    case Rec3 => d.thirdCountryTransfer
    case Rec4 => !d.encryption
    case Rec5 => !d.dataMinimization
  }

  /** The order in which the source runs the finding triggers. */
  const RiskTriggers: seq<RiskId> := [Risk1, Risk2, Risk3, Risk4, Risk5, Risk6, Risk7]

  /** The order in which the source pushes recommendations (triggers 1, 3, 4, 6 and 8). */
  const RecTriggers: seq<RecId> := [Rec1, Rec2, Rec3, Rec4, Rec5]

  /** Runs the given triggers in order; each one is `if (condition) risks.push(record)`. */
  function RunRiskTriggers(d: DsfaData, ids: seq<RiskId>): seq<Risk>
  {
    if ids == [] then []
    else When(Fires(d, ids[0]), RiskRecord(ids[0])) + RunRiskTriggers(d, ids[1..])
  }

  function RunRecTriggers(d: DsfaData, ids: seq<RecId>): seq<Recommendation>
  {
    if ids == [] then []
    else When(RecFires(d, ids[0]), RecRecord(ids[0])) + RunRecTriggers(d, ids[1..])
  }

  /** Step one, findings: `risk-1` to `risk-7`. */
  function GenerateRisks(d: DsfaData): seq<Risk>
  {
    RunRiskTriggers(d, RiskTriggers)
  }

  /** Step one, recommendations: `rec-1` to `rec-5`, in generation order. */
  function GenerateRecommendations(d: DsfaData): seq<Recommendation>
  {
    RunRecTriggers(d, RecTriggers)
  }

  /** The key of every element, in order. */
  function Ids<T, I>(xs: seq<T>, key: T -> I): (ids: seq<I>)
    ensures |ids| == |xs|
    ensures forall i | 0 <= i < |xs| :: ids[i] == key(xs[i])
  {
    seq(|xs|, i requires 0 <= i < |xs| => key(xs[i]))
  }

  /** Keys strictly increase along the sequence, so each appears at most once. */
  predicate IncreasingBy<T>(xs: seq<T>, key: T -> nat)
  {
    forall i, j | 0 <= i < j < |xs| :: key(xs[i]) < key(xs[j])
  }

  /** A guarded push in front of an increasing sequence keeps it increasing when its key comes first. */
  lemma IncreasingByCons<T>(w: seq<T>, rest: seq<T>, key: T -> nat)
    requires |w| <= 1 && IncreasingBy(rest, key)
    requires w != [] ==> forall i | 0 <= i < |rest| :: key(w[0]) < key(rest[i])
    ensures IncreasingBy(w + rest, key)
  {
    var r := w + rest;
    forall i, j | 0 <= i < j < |r|
      ensures key(r[i]) < key(r[j])
    {
      if i < |w| {
        assert r[i] == w[0] && r[j] == rest[j - 1];
      } else {
        assert r[i] == rest[i - |w|] && r[j] == rest[j - |w|];
      }
    }
  }

  // The keys passed to `Ids` and `IncreasingBy`: the id, and its position in the trigger order.
  function RiskIdOf(r: Risk): RiskId { r.id }
  function RecIdOf(r: Recommendation): RecId { r.id }
  function RiskPosition(r: Risk): nat { r.id.Index() }
  function RecPosition(r: Recommendation): nat { r.id.Index() }
  function RiskIdPosition(id: RiskId): nat { id.Index() }
  function RecIdPosition(id: RecId): nat { id.Index() }

  /** Every finding is the fixed record of its trigger. */
  predicate FixedRecords(rs: seq<Risk>)
  {
    forall i | 0 <= i < |rs| :: rs[i] == RiskRecord(rs[i].id)
  }

  /** Findings 1-5 carry severity high, findings 6-7 severity medium. */
  predicate SeverityByTrigger(rs: seq<Risk>)
  {
    forall i | 0 <= i < |rs| :: rs[i].severity == if rs[i].id.Index() <= 5 then High else Medium
  }

  lemma {:induction false} RunRiskTriggersIds(d: DsfaData, ids: seq<RiskId>)
    ensures forall id :: id in Ids(RunRiskTriggers(d, ids), RiskIdOf) <==> id in ids && Fires(d, id)
  {
    if ids != [] {
      var rest := RunRiskTriggers(d, ids[1..]);
      RunRiskTriggersIds(d, ids[1..]);
      var w := When(Fires(d, ids[0]), RiskRecord(ids[0]));
      assert Ids(w + rest, RiskIdOf) == Ids(w, RiskIdOf) + Ids(rest, RiskIdOf);
      assert Ids(w, RiskIdOf) == When(Fires(d, ids[0]), ids[0]);
      assert ids == [ids[0]] + ids[1..];
    }
  }

  lemma {:induction false} RunRiskTriggersRecords(d: DsfaData, ids: seq<RiskId>)
    ensures FixedRecords(RunRiskTriggers(d, ids))
  {
    if ids != [] {
      var rest := RunRiskTriggers(d, ids[1..]);
      RunRiskTriggersRecords(d, ids[1..]);
      var w := When(Fires(d, ids[0]), RiskRecord(ids[0]));
      var rs := w + rest;
      forall i | 0 <= i < |rs|
        ensures rs[i] == RiskRecord(rs[i].id)
      {
        if i < |w| {
          assert rs[i] == RiskRecord(ids[0]);
        } else {
          assert rs[i] == rest[i - |w|];
          assert rest[i - |w|] == RiskRecord(rest[i - |w|].id);
        }
      }
    }
  }

  lemma {:induction false} RunRiskTriggersOrder(d: DsfaData, ids: seq<RiskId>)
    requires IncreasingBy(ids, RiskIdPosition)
    ensures IncreasingBy(RunRiskTriggers(d, ids), RiskPosition)
  {
    if ids != [] {
      var rest := RunRiskTriggers(d, ids[1..]);
      RunRiskTriggersOrder(d, ids[1..]);
      RunRiskTriggersIds(d, ids[1..]);
      forall i | 0 <= i < |rest|
        ensures ids[0].Index() < rest[i].id.Index()
      {
        assert rest[i].id in Ids(rest, RiskIdOf);
        var k :| 0 <= k < |ids[1..]| && ids[1..][k] == rest[i].id;
        assert ids[k + 1] == rest[i].id;
      }
      IncreasingByCons(When(Fires(d, ids[0]), RiskRecord(ids[0])), rest, RiskPosition);
    }
  }

  /**
    The findings come in trigger order, so no id repeats; a finding is present exactly
    when its trigger's condition holds and is then the trigger's fixed record;
    findings 1-5 are of high severity and findings 6-7 of medium severity.
   */
  lemma GenerateRisksSpec(d: DsfaData)
    ensures var rs := GenerateRisks(d);
      && IncreasingBy(rs, RiskPosition)
      && (forall id :: id in Ids(rs, RiskIdOf) <==> Fires(d, id))
      && FixedRecords(rs)
      && SeverityByTrigger(rs)
  {
    RiskTriggersComplete();
    RunRiskTriggersIds(d, RiskTriggers);
    RunRiskTriggersRecords(d, RiskTriggers);
    RunRiskTriggersOrder(d, RiskTriggers);
    FixedRecordsSeverity(GenerateRisks(d));
  }

  lemma RiskTriggersComplete()
    ensures IncreasingBy(RiskTriggers, RiskIdPosition)
    ensures forall id: RiskId :: id in RiskTriggers
  {
    forall id: RiskId ensures id in RiskTriggers {
      match id
      case Risk1 => assert RiskTriggers[0] == id;
      case Risk2 => assert RiskTriggers[1] == id;
      case Risk3 => assert RiskTriggers[2] == id;
      case Risk4 => assert RiskTriggers[3] == id;
      case Risk5 => assert RiskTriggers[4] == id;
      case Risk6 => assert RiskTriggers[5] == id;
      case Risk7 => assert RiskTriggers[6] == id;
    }
  }

  lemma FixedRecordsSeverity(rs: seq<Risk>)
    requires FixedRecords(rs)
    ensures SeverityByTrigger(rs)
  {
    forall i | 0 <= i < |rs|
      ensures rs[i].severity == if rs[i].id.Index() <= 5 then High else Medium
    {
      assert rs[i] == RiskRecord(rs[i].id);
    }
  }

  /** Every recommendation is the fixed record of its trigger. */
  predicate FixedRecRecords(rs: seq<Recommendation>)
  {
    forall i | 0 <= i < |rs| :: rs[i] == RecRecord(rs[i].id)
  }

  lemma {:induction false} RunRecTriggersIds(d: DsfaData, ids: seq<RecId>)
    ensures forall id :: id in Ids(RunRecTriggers(d, ids), RecIdOf) <==> id in ids && RecFires(d, id)
  {
    if ids != [] {
      var rest := RunRecTriggers(d, ids[1..]);
      RunRecTriggersIds(d, ids[1..]);
      var w := When(RecFires(d, ids[0]), RecRecord(ids[0]));
      assert Ids(w + rest, RecIdOf) == Ids(w, RecIdOf) + Ids(rest, RecIdOf);
      assert Ids(w, RecIdOf) == When(RecFires(d, ids[0]), ids[0]);
      assert ids == [ids[0]] + ids[1..];
    }
  }

  lemma {:induction false} RunRecTriggersRecords(d: DsfaData, ids: seq<RecId>)
    ensures FixedRecRecords(RunRecTriggers(d, ids))
  {
    if ids != [] {
      var rest := RunRecTriggers(d, ids[1..]);
      RunRecTriggersRecords(d, ids[1..]);
      var w := When(RecFires(d, ids[0]), RecRecord(ids[0]));
      var rs := w + rest;
      forall i | 0 <= i < |rs|
        ensures rs[i] == RecRecord(rs[i].id)
      {
        if i < |w| {
          assert rs[i] == RecRecord(ids[0]);
        } else {
          assert rs[i] == rest[i - |w|];
        }
      }
    }
  }

  lemma {:induction false} RunRecTriggersOrder(d: DsfaData, ids: seq<RecId>)
    requires IncreasingBy(ids, RecIdPosition)
    ensures IncreasingBy(RunRecTriggers(d, ids), RecPosition)
  {
    if ids != [] {
      var rest := RunRecTriggers(d, ids[1..]);
      RunRecTriggersOrder(d, ids[1..]);
      RunRecTriggersIds(d, ids[1..]);
      forall i | 0 <= i < |rest|
        ensures ids[0].Index() < rest[i].id.Index()
      {
        assert rest[i].id in Ids(rest, RecIdOf);
        var k :| 0 <= k < |ids[1..]| && ids[1..][k] == rest[i].id;
        assert ids[k + 1] == rest[i].id;
      }
      IncreasingByCons(When(RecFires(d, ids[0]), RecRecord(ids[0])), rest, RecPosition);
    }
  }

  /**
    The generated recommendations come in trigger order; one is present exactly when
    its trigger's condition holds; none has low priority; and the high ones
    (`rec-1` to `rec-3`) all precede the medium ones (`rec-4`, `rec-5`), so the
    generation order is already sorted by priority.
   */
  lemma GenerateRecommendationsSpec(d: DsfaData)
    ensures var rs := GenerateRecommendations(d);
      && IncreasingBy(rs, RecPosition)
      && (forall id :: id in Ids(rs, RecIdOf) <==> RecFires(d, id))
      && FixedRecRecords(rs)
      && (forall i | 0 <= i < |rs| :: rs[i].priority == if rs[i].id.Index() <= 3 then High else Medium)
      && Sorted(rs)
  {
    RecTriggersComplete();
    RunRecTriggersIds(d, RecTriggers);
    RunRecTriggersRecords(d, RecTriggers);
    RunRecTriggersOrder(d, RecTriggers);
    FixedRecRecordsPriority(GenerateRecommendations(d));
  }

  lemma RecTriggersComplete()
    ensures IncreasingBy(RecTriggers, RecIdPosition)
    ensures forall id: RecId :: id in RecTriggers
  {
    forall id: RecId ensures id in RecTriggers {
      match id
      case Rec1 => assert RecTriggers[0] == id;
      case Rec2 => assert RecTriggers[1] == id;
      case Rec3 => assert RecTriggers[2] == id;
      case Rec4 => assert RecTriggers[3] == id;
      case Rec5 => assert RecTriggers[4] == id;
    }
  }

  lemma FixedRecRecordsPriority(rs: seq<Recommendation>)
    requires FixedRecRecords(rs)
    ensures forall i | 0 <= i < |rs| :: rs[i].priority == if rs[i].id.Index() <= 3 then High else Medium
  {
    forall i | 0 <= i < |rs|
      ensures rs[i].priority == if rs[i].id.Index() <= 3 then High else Medium
    {
      assert rs[i] == RecRecord(rs[i].id);
    }
  }

  /** `risks.filter(r => r.severity === s).length` */
  function CountSeverity(rs: seq<Risk>, s: Level): (n: nat)
    ensures n <= |rs|
  {
    if rs == [] then 0
    else (if rs[0].severity == s then 1 else 0) + CountSeverity(rs[1..], s)
  }

  /** The number of the given triggers that fire and whose record has severity `s`. */
  function CountFiring(d: DsfaData, ids: seq<RiskId>, s: Level): nat
  {
    if ids == [] then 0
    else (if Fires(d, ids[0]) && RiskRecord(ids[0]).severity == s then 1 else 0) + CountFiring(d, ids[1..], s)
  }

  lemma {:induction false} CountSeverityRun(d: DsfaData, ids: seq<RiskId>, s: Level)
    ensures CountSeverity(RunRiskTriggers(d, ids), s) == CountFiring(d, ids, s)
  {
    if ids != [] {
      var w := When(Fires(d, ids[0]), RiskRecord(ids[0]));
      var rest := RunRiskTriggers(d, ids[1..]);
      CountSeverityRun(d, ids[1..], s);
      if w != [] {
        assert (w + rest)[1..] == rest;
      } else {
        assert w + rest == rest;
      }
    }
  }

  /** How many of the five risk-factor flags are set. */
  function FactorCount(d: DsfaData): (n: nat)
    ensures n <= 5
  {
    (if d.sensitiveData then 1 else 0)
    + (if d.largeScaleProcessing then 1 else 0)
    + (if d.automatedDecisionMaking then 1 else 0)
    + (if d.thirdCountryTransfer then 1 else 0)
    + (if d.systematicMonitoring then 1 else 0)
  }

  /** How many of the two critical safeguards (encryption, access controls) are missing. */
  function MissingSafeguards(d: DsfaData): (n: nat)
    ensures n <= 2
  {
    (if d.encryption then 0 else 1) + (if d.accessControls then 0 else 1)
  }

  function FiringTerm(d: DsfaData, id: RiskId, s: Level): nat
  {
    if Fires(d, id) && RiskRecord(id).severity == s then 1 else 0
  }

  lemma CountFiringCons(d: DsfaData, x: RiskId, t: seq<RiskId>, s: Level)
    ensures CountFiring(d, [x] + t, s) == FiringTerm(d, x, s) + CountFiring(d, t, s)
  {
    assert ([x] + t)[1..] == t;
  }

  lemma CountFiringUnrolled(d: DsfaData, s: Level)
    ensures CountFiring(d, RiskTriggers, s)
      == FiringTerm(d, Risk1, s) + FiringTerm(d, Risk2, s) + FiringTerm(d, Risk3, s) + FiringTerm(d, Risk4, s)
       + FiringTerm(d, Risk5, s) + FiringTerm(d, Risk6, s) + FiringTerm(d, Risk7, s)
  {
    var t6 := [Risk7];
    var t5 := [Risk6] + t6;
    var t4 := [Risk5] + t5;
    var t3 := [Risk4] + t4;
    var t2 := [Risk3] + t3;
    var t1 := [Risk2] + t2;
    assert RiskTriggers == [Risk1] + t1;
    CountFiringCons(d, Risk1, t1, s);
    CountFiringCons(d, Risk2, t2, s);
    CountFiringCons(d, Risk3, t3, s);
    CountFiringCons(d, Risk4, t4, s);
    CountFiringCons(d, Risk5, t5, s);
    CountFiringCons(d, Risk6, t6, s);
    CountFiringCons(d, Risk7, [], s);
    assert t6 == [Risk7] + [];
  }

  /**
    Because severities are literals, the number of high-severity findings is the
    number of set risk-factor flags, and the number of medium-severity findings is
    the number of missing critical safeguards, hence at most two.
   */
  lemma SeverityCounts(d: DsfaData)
    ensures CountSeverity(GenerateRisks(d), High) == FactorCount(d)
    ensures CountSeverity(GenerateRisks(d), Medium) == MissingSafeguards(d)
    ensures CountSeverity(GenerateRisks(d), Low) == 0
  {
    SeverityCount(d, High);
    SeverityCount(d, Medium);
    SeverityCount(d, Low);
  }

  lemma SeverityCount(d: DsfaData, s: Level)
    ensures CountSeverity(GenerateRisks(d), s)
      == match s
         case High => FactorCount(d)
         case Medium => MissingSafeguards(d)
         case Low => 0
  {
    CountSeverityRun(d, RiskTriggers, s);
    CountFiringUnrolled(d, s);
  }

  lemma RunRiskTriggersCons(d: DsfaData, x: RiskId, t: seq<RiskId>)
    ensures RunRiskTriggers(d, [x] + t) == When(Fires(d, x), RiskRecord(x)) + RunRiskTriggers(d, t)
  {
    assert ([x] + t)[1..] == t;
  }

  lemma RunRecTriggersCons(d: DsfaData, x: RecId, t: seq<RecId>)
    ensures RunRecTriggers(d, [x] + t) == When(RecFires(d, x), RecRecord(x)) + RunRecTriggers(d, t)
  {
    assert ([x] + t)[1..] == t;
  }

  /** The last four triggers of the table. */
  lemma RiskTriggersTail(d: DsfaData)
    ensures RunRiskTriggers(d, [Risk4, Risk5, Risk6, Risk7])
      == When(d.thirdCountryTransfer, RiskRecord(Risk4))
       + (When(d.systematicMonitoring, RiskRecord(Risk5))
       + (When(!d.encryption, RiskRecord(Risk6))
       + When(!d.accessControls, RiskRecord(Risk7))))
  {
    var t6 := [Risk7];
    var t5 := [Risk6] + t6;
    var t4 := [Risk5] + t5;
    assert [Risk4, Risk5, Risk6, Risk7] == [Risk4] + t4;
    RunRiskTriggersCons(d, Risk7, []);
    assert t6 == [Risk7] + [];
    RunRiskTriggersCons(d, Risk6, t6);
    RunRiskTriggersCons(d, Risk5, t5);
    RunRiskTriggersCons(d, Risk4, t4);
  }

  /** The trigger table run is the source's sequence of seven guarded `risks.push` calls. */
  lemma GenerateRisksUnrolled(d: DsfaData)
    ensures GenerateRisks(d)
      == When(d.sensitiveData, RiskRecord(Risk1))
       + (When(d.largeScaleProcessing, RiskRecord(Risk2))
       + (When(d.automatedDecisionMaking, RiskRecord(Risk3))
       + (When(d.thirdCountryTransfer, RiskRecord(Risk4))
       + (When(d.systematicMonitoring, RiskRecord(Risk5))
       + (When(!d.encryption, RiskRecord(Risk6))
       + When(!d.accessControls, RiskRecord(Risk7)))))))
  {
    var t3 := [Risk4, Risk5, Risk6, Risk7];
    var t2 := [Risk3] + t3;
    var t1 := [Risk2] + t2;
    assert RiskTriggers == [Risk1] + t1;
    RiskTriggersTail(d);
    RunRiskTriggersCons(d, Risk3, t3);
    RunRiskTriggersCons(d, Risk2, t2);
    RunRiskTriggersCons(d, Risk1, t1);
  }

  /** The trigger table run is the source's sequence of five guarded `recommendations.push` calls. */
  lemma GenerateRecommendationsUnrolled(d: DsfaData)
    ensures GenerateRecommendations(d)
      == When(d.sensitiveData, RecRecord(Rec1))
       + (When(d.automatedDecisionMaking, RecRecord(Rec2))
       + (When(d.thirdCountryTransfer, RecRecord(Rec3))
       + (When(!d.encryption, RecRecord(Rec4))
       + When(!d.dataMinimization, RecRecord(Rec5)))))
  {
    var t4 := [Rec5];
    var t3 := [Rec4] + t4;
    var t2 := [Rec3] + t3;
    var t1 := [Rec2] + t2;
    assert RecTriggers == [Rec1] + t1;
    RunRecTriggersCons(d, Rec5, []);
    assert t4 == [Rec5] + [];
    var u4 := RunRecTriggers(d, t4);
    assert u4 == When(!d.dataMinimization, RecRecord(Rec5));
    RunRecTriggersCons(d, Rec4, t4);
    RunRecTriggersCons(d, Rec3, t3);
    RunRecTriggersCons(d, Rec2, t2);
    RunRecTriggersCons(d, Rec1, t1);
  }
}
