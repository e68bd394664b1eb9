/** One run that goes all the way: a key is created, delivered and acknowledged, and the operation is active.
    So the promises about acknowledged deliveries and active operations are about states that do occur. */
module OperationWitness {
  import opened Wrappers
  import opened BrokerTypes
  import opened BrokerSql
  import opened OperationProtocol

  const Who := Subject(Discord, 7)
  const First := AttemptId(0, 1)
  const NoKeys := Provider({}, {}, map[], 0)
  const OneKey := Provider({0}, {}, map[0 := First], 1)

  const Opened := Operation(Who, Authenticated, Wait, 0, 0, AUTH_TTL_MS, None)
  const Going := Operation(Who, Creating, Wait, 1, 1, AUTH_TTL_MS, None)
  const Waiting := Going.(state := DeliveryPending, clientAction := AcknowledgeDelivery)
  const Done := Going.(state := Active, clientAction := Wait)

  const Made := FreshAttempt.(credential := Some(0), outcome := Created)
  const Sent := Delivery(First, 0, AwaitingAck, 100, None, None)

  function At(op: Operation, attempts: map<AttemptId, Attempt>, deliveries: map<DeliveryId, Delivery>, row: Entitlement, prov: Provider, pc: Pc): Sys {
    Sys(Db(map[0 := op], attempts, deliveries, map[0 := row]), prov, map[0 := pc], {}, 0)
  }

  const Reserved := Entitlement(Who, None, Issuing)
  const Attached := Entitlement(Who, Some(0), AwaitingDelivery)

  const Started := At(Going, map[First := FreshAttempt], map[], Reserved, NoKeys, Fresh(First))
  const Asked := At(Going, map[First := FreshAttempt.(inFlight := true)], map[], Reserved, NoKeys.(pending := {First}), Requested(First))
  const Landed := At(Going, map[First := FreshAttempt.(inFlight := true)], map[], Reserved, OneKey, Requested(First))
  const Told := At(Going, map[First := FreshAttempt.(inFlight := true)], map[], Reserved, OneKey, Answered(First, 0))
  const Written := At(Going, map[First := Made], map[], Reserved, OneKey, Holding(First, 0))
  const Noted := At(Going, map[First := Made], map[], Reserved, OneKey, Recorded(First, 0))
  const Bound := At(Going, map[First := Made], map[], Attached, OneKey, Recorded(First, 0))
  const Handed := At(Going, map[First := Made], map[0 := Sent], Attached, OneKey, Delivered(First, 0))
  const Pending := At(Waiting, map[First := Made], map[0 := Sent], Attached, OneKey, Unwinding(First, Some(0)))
  const Acked := At(Waiting, map[First := Made], map[0 := Sent.(status := Acknowledged)], Attached.(phase := Granted), OneKey,
                    Unwinding(First, Some(0)))
  const Finished := At(Done, map[First := Made], map[0 := Sent.(status := Acknowledged)], Attached.(phase := Granted), OneKey,
                       Unwinding(First, Some(0)))

  lemma StartStep()
    ensures Step(Step(Step(Init, OnTables(ACreateOperation(0, Who, 0))), OnTables(AHousekeep(0, Some(Reserved)))),
                 ByRequest(0, AStart(0, 0, 0))) == Started
  {
    var s1 := Step(Init, OnTables(ACreateOperation(0, Who, 0)));
    assert s1 == Sys(Db(map[0 := Opened], map[], map[], map[]), NoKeys, map[], {}, 0);
    var s2 := Step(s1, OnTables(AHousekeep(0, Some(Reserved))));
    assert s2 == Sys(Db(map[0 := Opened], map[], map[], map[0 := Reserved]), NoKeys, map[], {}, 0);
    assert CanStart(s2.db, 0, 0, 0);
  }

  lemma AskStep()
    ensures Step(Started, ByRequest(0, ASendCreate)) == Asked
  {
  }

  lemma LandStep()
    ensures Step(Asked, AtProvider(ALand(First))) == Landed
  {
  }

  lemma TellStep()
    ensures Step(Landed, ByRequest(0, AReceive(0))) == Told
  {
  }

  lemma WriteStep()
    ensures Step(Told, ByRequest(0, AWriteBack(true))) == Written
  {
  }

  lemma NoteStep()
    ensures Step(Written, ByRequest(0, ARecord)) == Noted
  {
  }

  lemma BindStep()
    ensures Step(Noted, ByRequest(0, AWriteEntitlement(0, AwaitingDelivery))) == Bound
  {
    assert First in Noted.db.attempts.Keys;
    assert EntitlementAllowed(Noted.db, 0);
  }

  lemma HandStep()
    ensures Step(Bound, ByRequest(0, ADeliver(0, 100))) == Handed
  {
  }

  lemma SettleStep()
    ensures Step(Handed, ByRequest(0, ASettle)) == Pending
  {
  }

  lemma AckStep()
    ensures Step(Pending, OnTables(AAck(0, 0, true))) == Acked
  {
    assert First in Pending.db.attempts.Keys;
    assert EntitlementAllowed(Pending.db, 0);
  }

  lemma ActivateStep()
    ensures Step(Acked, OnTables(AActivate(0))) == Finished
  {
  }

  function Story(): seq<Action> {
    [OnTables(ACreateOperation(0, Who, 0)), OnTables(AHousekeep(0, Some(Reserved))), ByRequest(0, AStart(0, 0, 0)),
     ByRequest(0, ASendCreate), AtProvider(ALand(First)), ByRequest(0, AReceive(0)), ByRequest(0, AWriteBack(true)),
     ByRequest(0, ARecord), ByRequest(0, AWriteEntitlement(0, AwaitingDelivery)), ByRequest(0, ADeliver(0, 100)),
     ByRequest(0, ASettle), OnTables(AAck(0, 0, true)), OnTables(AActivate(0))]
  }

  lemma Next(s: Sys, acts: seq<Action>, i: nat)
    requires i < |acts|
    ensures Run(s, acts[i..]) == Run(Step(s, acts[i]), acts[i + 1..])
  {
    hide Step;
    assert acts[i..][1..] == acts[i + 1..];
  }

  lemma OperationStarts()
    ensures Run(Init, Story()) == Run(Started, Story()[3..])
  {
    hide Step, Run;
    var acts := Story();
    StartStep();
    assert acts[0..] == acts;
    Next(Init, acts, 0);
    Next(Step(Init, acts[0]), acts, 1);
    Next(Step(Step(Init, acts[0]), acts[1]), acts, 2);
  }

  lemma KeyArrives()
    ensures Run(Started, Story()[3..]) == Run(Written, Story()[7..])
  {
    hide Step, Run;
    var acts := Story();
    AskStep();
    LandStep();
    TellStep();
    WriteStep();
    Next(Started, acts, 3);
    Next(Asked, acts, 4);
    Next(Landed, acts, 5);
    Next(Told, acts, 6);
  }

  lemma KeyIsDelivered()
    ensures Run(Written, Story()[7..]) == Finished
  {
    hide Step, Run;
    var acts := Story();
    NoteStep();
    BindStep();
    HandStep();
    SettleStep();
    AckStep();
    ActivateStep();
    Next(Written, acts, 7);
    Next(Noted, acts, 8);
    Next(Bound, acts, 9);
    Next(Handed, acts, 10);
    Next(Pending, acts, 11);
    Next(Acked, acts, 12);
    assert acts[13..] == [];
    assert Run(Finished, []) == Finished by { Stop(Finished); }
  }

  lemma ActiveIsReachable()
    ensures Run(Init, Story()) == Finished
    ensures Finished.db.ops[0].state == Active && Finished.db.deliveries[0].status == Acknowledged
  {
    hide Run, Story;
    OperationStarts();
    KeyArrives();
    KeyIsDelivered();
  }

  lemma Stop(s: Sys)
    ensures Run(s, []) == s
  {
    hide Step;
  }
}
