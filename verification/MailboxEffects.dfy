/**
 Exactly what each call of two honest mailboxes does, in every run, and that a request made in time runs to its end
 (packages/client/src/agent-mailbox.ts). Together with Convergence, which bounds what can go wrong, this says what
 does go right.
 */
module MailboxEffects {
  import opened Basics
  import opened AgentMailbox

  function KeyOf(s: Side, c: Correlation): (PeerId, Correlation) {
    (PeerOf(s), c)
  }

  /** What `s` was asked under `c` and has not decided. */
  predicate Undecided(w: World, s: Side, c: Correlation) {
    KeyOf(s, c) in BoxOf(w, s).incoming && BoxOf(w, s).incoming[KeyOf(s, c)].outcome.AwaitingAdmission?
  }

  /** The box of `s` with one incoming outcome replaced. */
  function WithIncoming(box: Box, key: (PeerId, Correlation), outcome: Outcome): Box
    requires key in box.incoming
  {
    box.(incoming := box.incoming[key := box.incoming[key].(outcome := outcome)])
  }

  function WithOutgoing(box: Box, key: (PeerId, Correlation), outcome: Outcome): Box
    requires key in box.outgoing
  {
    box.(outgoing := box.outgoing[key := box.outgoing[key].(outcome := outcome)])
  }

  lemma Reached(steps: seq<Step>)
    ensures Inv(Run(Begin(), steps))
  {
    BeginInv();
    AgentMailbox.RunKeeps(Begin(), steps);
  }

  // ---- Admission ----

  /** `s` mails one piece of evidence and holds the outcome it stands for; the other side and all other requests are
      as before. */
  ghost predicate Concludes(w: World, w': World, s: Side, c: Correlation, e: Evidence, outcome: Outcome, id: MsgId)
    requires KeyOf(s, c) in BoxOf(w, s).incoming
  {
    && w'.mail == w.mail[id := Post(s, Tell(e))]
    && BoxOf(w', s) == WithIncoming(BoxOf(w, s), KeyOf(s, c), outcome)
    && BoxOf(w', Other(s)) == BoxOf(w, Other(s))
  }

  lemma MailedConcludes(w: World, s: Side, c: Correlation, e: Evidence, outcome: Outcome, id: MsgId)
    requires KeyOf(s, c) in BoxOf(w, s).incoming
    ensures var w' := Mailed(WithBox(w, s, WithIncoming(BoxOf(w, s), KeyOf(s, c), outcome)), s, [e], id);
            Concludes(w, w', s, c, e, outcome, id) && w'.admissions == w.admissions
  {
  }

  lemma AdmitBox(box: Box, peer: PeerId, c: Correlation, chosenAt: int, committedAt: int)
    requires peer in box.allowed && (peer, c) in box.incoming && box.incoming[(peer, c)].outcome.AwaitingAdmission?
    ensures var r := Admit(box, peer, c, chosenAt, committedAt); var deadline := box.incoming[(peer, c)].request.acceptBefore;
            if chosenAt < deadline && committedAt < deadline
            then r == AdmitResult(WithIncoming(box, (peer, c), Admitted), [Accepted(c)], NewAdmission)
            else r == AdmitResult(WithIncoming(box, (peer, c), Failing(Expired(c))), [Failed(Expired(c))], ExistingDecision)
  {
  }

  lemma AdmitNext(w: World, s: Side, c: Correlation, chosenAt: int, committedAt: int, id: MsgId, r: AdmitResult)
    requires id !in w.mail && r == Admit(BoxOf(w, s), PeerOf(s), c, chosenAt, committedAt)
    ensures var w1 := Mailed(WithBox(w, s, r.box), s, r.sent, id);
            Next(w, DoAdmit(s, c, chosenAt, committedAt, id)) ==
            if r.decision.NewAdmission? then w1.(admissions := w.admissions + [Admitting(s, c, committedAt)]) else w1
  {
  }

  lemma AdmitEffect(w: World, s: Side, c: Correlation, chosenAt: int, committedAt: int, id: MsgId, deadline: int)
    requires BoxOf(w, s).allowed == {PeerOf(s)} && Undecided(w, s, c) && id !in w.mail
    requires deadline == BoxOf(w, s).incoming[KeyOf(s, c)].request.acceptBefore
    ensures var w' := Next(w, DoAdmit(s, c, chosenAt, committedAt, id));
            if chosenAt < deadline && committedAt < deadline
            then Concludes(w, w', s, c, Accepted(c), Admitted, id) && w'.admissions == w.admissions + [Admitting(s, c, committedAt)]
            else Concludes(w, w', s, c, Failed(Expired(c)), Failing(Expired(c)), id) && w'.admissions == w.admissions
  {
    AdmitBox(BoxOf(w, s), PeerOf(s), c, chosenAt, committedAt);
    AdmitNext(w, s, c, chosenAt, committedAt, id, Admit(BoxOf(w, s), PeerOf(s), c, chosenAt, committedAt));
    MailedConcludes(w, s, c, Accepted(c), Admitted, id);
    MailedConcludes(w, s, c, Failed(Expired(c)), Failing(Expired(c)), id);
  }

  /** A request the responder knows and has not decided is admitted exactly when both clock readings are before the
      deadline its requester set: one acceptance is mailed and the admission is on record. Otherwise the expiry is
      mailed, the request has failed with it, and nothing is admitted. */
  lemma AdmitsIff(steps: seq<Step>, s: Side, c: Correlation, chosenAt: int, committedAt: int, id: MsgId)
    requires Undecided(Run(Begin(), steps), s, c) && id !in Run(Begin(), steps).mail
    ensures var w := Run(Begin(), steps); var q := Other(s); var w' := Next(w, DoAdmit(s, c, chosenAt, committedAt, id));
            && KeyOf(q, c) in BoxOf(w, q).outgoing
            && var deadline := BoxOf(w, q).outgoing[KeyOf(q, c)].request.acceptBefore;
            if chosenAt < deadline && committedAt < deadline
            then Concludes(w, w', s, c, Accepted(c), Admitted, id) && w'.admissions == w.admissions + [Admitting(s, c, committedAt)]
            else Concludes(w, w', s, c, Failed(Expired(c)), Failing(Expired(c)), id) && w'.admissions == w.admissions
  {
    Reached(steps);
    var w := Run(Begin(), steps);
    assert CorrelationOk(w, Other(s), c);
    AdmitEffect(w, s, c, chosenAt, committedAt, id, BoxOf(w, s).incoming[KeyOf(s, c)].request.acceptBefore);
  }

  // ---- Responding ----

  /** What a piece of evidence other than an acceptance says happened. */
  function Says(e: Evidence): Outcome
    requires !e.Accepted?
  {
    if e.Failed? then Failing(e.error) else Done(e.value)
  }

  /** The report follows the decision: a refusal of what is undecided, an outcome of what was admitted. */
  predicate Timely(w: World, s: Side, e: Evidence) {
    var key := KeyOf(s, About(e));
    && !e.Accepted? && key in BoxOf(w, s).incoming
    && if e.Failed? && e.error.stage.Admission? then BoxOf(w, s).incoming[key].outcome.AwaitingAdmission?
       else BoxOf(w, s).incoming[key].outcome.Admitted?
  }

  lemma RespondBox(box: Box, peer: PeerId, e: Evidence)
    requires box.allowed == {peer} && ((peer, About(e)) in box.incoming ==> !box.incoming[(peer, About(e))].outcome.AwaitingEvidence?)
    ensures var r := Respond(box, peer, e); var key := (peer, About(e));
            if !e.Accepted? && key in box.incoming
               && (if e.Failed? && e.error.stage.Admission? then box.incoming[key].outcome.AwaitingAdmission? else box.incoming[key].outcome.Admitted?)
            then r.sent == [e] && r.box == WithIncoming(box, key, Says(e))
            else r.sent == [] && r.box == box
  {
  }

  lemma RespondEffect(w: World, s: Side, e: Evidence, id: MsgId)
    requires BoxOf(w, s).allowed == {PeerOf(s)} && CorrelationOk(w, Other(s), About(e)) && id !in w.mail
    ensures var w' := Next(w, DoRespond(s, e, id));
            && w'.admissions == w.admissions
            && if Timely(w, s, e) then Concludes(w, w', s, About(e), e, Says(e), id) else w' == w
  {
    RespondBox(BoxOf(w, s), PeerOf(s), e);
    if Timely(w, s, e) {
      MailedConcludes(w, s, About(e), e, Says(e), id);
    }
  }

  /** A report is mailed and recorded exactly when it is timely; any other changes nothing and mails nothing. */
  lemma RespondsIff(steps: seq<Step>, s: Side, e: Evidence, id: MsgId)
    requires id !in Run(Begin(), steps).mail
    ensures var w := Run(Begin(), steps); var w' := Next(w, DoRespond(s, e, id));
            && w'.admissions == w.admissions
            && if Timely(w, s, e) then Concludes(w, w', s, About(e), e, Says(e), id) else w' == w
  {
    Reached(steps);
    var w := Run(Begin(), steps);
    assert CorrelationOk(w, Other(s), About(e));
    RespondEffect(w, s, e, id);
  }

  // ---- Submitting and observing ----

  /** A submission is recorded and mailed exactly when its correlation is new to the requester. */
  lemma SubmitsIff(steps: seq<Step>, s: Side, request: Request, id: MsgId)
    requires id !in Run(Begin(), steps).mail
    ensures var w := Run(Begin(), steps); var w' := Next(w, DoSubmit(s, request, id));
            if KeyOf(s, request.correlation) in BoxOf(w, s).outgoing then w' == w
            else
              && w'.mail == w.mail[id := Post(s, Ask(request))]
              && BoxOf(w', s) == BoxOf(w, s).(outgoing := BoxOf(w, s).outgoing[KeyOf(s, request.correlation) := Out(request, id, AwaitingEvidence)])
              && BoxOf(w', Other(s)) == BoxOf(w, Other(s)) && w'.admissions == w.admissions
  {
    Reached(steps);
  }

  /** What observing a letter makes of the box: a new request waits for admission, an acceptance ends the wait for
      evidence, and any other evidence is what happened. A letter seen before changes nothing. */
  function Observed(box: Box, peer: PeerId, id: MsgId, content: Content): Box {
    if id in box.seen then box
    else
      match content
      case Malformed => box
      case Ask(request) =>
        var key := (peer, request.correlation);
        box.(seen := box.seen + {id}, incoming := if key in box.incoming then box.incoming else box.incoming[key := In(request, AwaitingAdmission)])
      case Tell(e) =>
        var key := (peer, About(e));
        if key !in box.outgoing then box
        else
          var before := box.outgoing[key].outcome;
          WithOutgoing(box, key, if !e.Accepted? then Says(e) else if before.AwaitingEvidence? then Admitted else before).(seen := box.seen + {id})
  }

  lemma ObserveEffect(w: World, s: Side, id: MsgId)
    requires Inv(w) && id in w.mail && w.mail[id].from == Other(s)
    ensures Next(w, DoSync(s, id)) == WithBox(w, s, Observed(BoxOf(w, s), PeerOf(s), id, w.mail[id].content))
    ensures match w.mail[id].content
            case Malformed => false
            case Ask(request) => KeyOf(Other(s), request.correlation) in BoxOf(w, Other(s)).outgoing
            case Tell(e) => KeyOf(s, About(e)) in BoxOf(w, s).outgoing
  {
    assert MailOk(w, id);
    match w.mail[id].content {
      case Malformed =>
      case Ask(request) => assert CorrelationOk(w, Other(s), request.correlation);
      case Tell(e) =>
        assert CorrelationOk(w, s, About(e));
        EvidenceApplies(w, s, id);
    }
  }

  /** Every letter there is can be observed, with exactly that effect, and is about a request that was made. */
  lemma ObservesIff(steps: seq<Step>, s: Side, id: MsgId)
    requires id in Run(Begin(), steps).mail && Run(Begin(), steps).mail[id].from == Other(s)
    ensures var w := Run(Begin(), steps);
            && Next(w, DoSync(s, id)) == WithBox(w, s, Observed(BoxOf(w, s), PeerOf(s), id, w.mail[id].content))
            && match w.mail[id].content
               case Malformed => false
               case Ask(request) => KeyOf(Other(s), request.correlation) in BoxOf(w, Other(s)).outgoing
               case Tell(e) => KeyOf(s, About(e)) in BoxOf(w, s).outgoing
  {
    Reached(steps);
    ObserveEffect(Run(Begin(), steps), s, id);
  }

  // ---- Peers that do not keep to the protocol ----

  /** Evidence that goes against what is held: an acceptance of what was refused, a refusal of what was admitted, or
      another outcome than the one reported. */
  predicate GoesAgainst(held: Outcome, e: Evidence) {
    if e.Accepted? then held.Failing? && held.error.stage.Admission?
    else (Terminal(held) && held != Says(e)) || (held.Admitted? && e.Failed? && e.error.stage.Admission?)
  }

  /** Why a letter is rejected, if it is. */
  function Fault(box: Box, letter: Letter): Option<Code> {
    match letter.content
    case Malformed => Some(InvalidEnvelope)
    case Ask(request) =>
      var key := (letter.from, request.correlation);
      if key in box.incoming && box.incoming[key].request != request then Some(CorrelationConflict) else None
    case Tell(e) =>
      var key := (letter.from, About(e));
      if key !in box.outgoing then Some(UnknownCorrelation)
      else if GoesAgainst(box.outgoing[key].outcome, e) then Some(ConflictingEvidence)
      else None
  }

  /** Any letter from anybody: ignored if its sender is not allowed or it was seen; rejected, on record and with no other
      effect, exactly for its fault; otherwise observed. */
  lemma SyncExact(box: Box, letter: Letter)
    ensures SyncOne(box, letter) ==
            if letter.from !in box.allowed || letter.id in box.seen then box
            else if Fault(box, letter).Some? then
              box.(rejected := box.rejected[letter.id := Fault(box, letter).value], seen := box.seen + {letter.id})
            else Observed(box, letter.from, letter.id, letter.content)
  {
  }

  /** Whatever a peer sends, in whatever order: what it once asked for, and what was decided on it, is never rewritten;
      an outcome once reported stays; and no letter is taken twice. */
  lemma {:induction false} NothingRewritten(box: Box, inbox: seq<Letter>)
    ensures var after := SyncAll(box, inbox);
            && (forall key :: key in box.incoming ==> key in after.incoming && after.incoming[key] == box.incoming[key])
            && (forall key :: key in box.outgoing && Terminal(box.outgoing[key].outcome) ==> key in after.outgoing && after.outgoing[key] == box.outgoing[key])
            && box.seen <= after.seen
            && (forall i :: 0 <= i < |inbox| && inbox[i].from in box.allowed ==> inbox[i].id in after.seen)
            && after.allowed == box.allowed
    decreases |inbox|
  {
    if inbox != [] {
      SyncExact(box, inbox[0]);
      SyncStep(box, inbox[0]);
      NothingRewritten(SyncOne(box, inbox[0]), inbox[1..]);
    }
  }

  lemma SyncStep(box: Box, letter: Letter)
    ensures var after := SyncOne(box, letter);
            && (forall key :: key in box.incoming ==> key in after.incoming && after.incoming[key] == box.incoming[key])
            && (forall key :: key in box.outgoing && Terminal(box.outgoing[key].outcome) ==> key in after.outgoing && after.outgoing[key] == box.outgoing[key])
            && box.seen <= after.seen && (letter.from in box.allowed ==> letter.id in after.seen) && after.allowed == box.allowed
  {
  }

  // ---- From request to outcome ----

  lemma {:induction false} RunSnoc(w: World, steps: seq<Step>, step: Step)
    ensures Run(w, steps + [step]) == Next(Run(w, steps), step)
    decreases |steps|
  {
    if steps == [] {
      assert [] + [step] == [step] && [step][1..] == [];
    } else {
      assert (steps + [step])[0] == steps[0] && (steps + [step])[1..] == steps[1..] + [step];
      RunSnoc(Next(w, steps[0]), steps[1..], step);
    }
  }

  /** The ask is made and the responder knows of it. */
  lemma Asked(steps: seq<Step>, q: Side, request: Request, i1: MsgId) returns (more: seq<Step>)
    requires var w := Run(Begin(), steps); KeyOf(q, request.correlation) !in BoxOf(w, q).outgoing && i1 !in w.mail
    ensures var w, w' := Run(Begin(), steps), Run(Begin(), more); var c := request.correlation;
            && w'.mail.Keys == w.mail.Keys + {i1} && Undecided(w', Other(q), c)
            && KeyOf(q, c) in BoxOf(w', q).outgoing && BoxOf(w', q).outgoing[KeyOf(q, c)].request == request
            && BoxOf(w', q).outgoing[KeyOf(q, c)].outcome == AwaitingEvidence
  {
    var w := Run(Begin(), steps);
    var c := request.correlation;
    Reached(steps);
    SubmitsIff(steps, q, request, i1);
    var step1, step2 := DoSubmit(q, request, i1), DoSync(Other(q), i1);
    RunSnoc(Begin(), steps, step1);
    Reached(steps + [step1]);
    ObservesIff(steps + [step1], Other(q), i1);
    more := steps + [step1] + [step2];
    RunSnoc(Begin(), steps + [step1], step2);
    assert MailOk(w, i1) && CorrelationOk(w, q, c);
  }

  /** The request is admitted and the requester knows of it. */
  lemma AcceptedInTime(steps: seq<Step>, q: Side, c: Correlation, chosenAt: int, committedAt: int, i2: MsgId) returns (more: seq<Step>)
    requires var w := Run(Begin(), steps);
             && Undecided(w, Other(q), c) && i2 !in w.mail
             && KeyOf(q, c) in BoxOf(w, q).outgoing && BoxOf(w, q).outgoing[KeyOf(q, c)].outcome == AwaitingEvidence
             && chosenAt < BoxOf(w, q).outgoing[KeyOf(q, c)].request.acceptBefore && committedAt < BoxOf(w, q).outgoing[KeyOf(q, c)].request.acceptBefore
    ensures var w, w' := Run(Begin(), steps), Run(Begin(), more);
            && w'.mail.Keys == w.mail.Keys + {i2} && KeyOf(q, c) in BoxOf(w', q).outgoing
            && BoxOf(w', q).outgoing[KeyOf(q, c)].outcome == Admitted
            && KeyOf(Other(q), c) in BoxOf(w', Other(q)).incoming && BoxOf(w', Other(q)).incoming[KeyOf(Other(q), c)].outcome == Admitted
  {
    var w := Run(Begin(), steps);
    Reached(steps);
    assert MailOk(w, i2);
    AdmitsIff(steps, Other(q), c, chosenAt, committedAt, i2);
    var step1, step2 := DoAdmit(Other(q), c, chosenAt, committedAt, i2), DoSync(q, i2);
    RunSnoc(Begin(), steps, step1);
    ObservesIff(steps + [step1], q, i2);
    more := steps + [step1] + [step2];
    RunSnoc(Begin(), steps + [step1], step2);
  }

  /** The outcome is reported and the requester knows of it. */
  lemma Reported(steps: seq<Step>, q: Side, e: Evidence, i3: MsgId) returns (more: seq<Step>)
    requires var w := Run(Begin(), steps); Timely(w, Other(q), e) && i3 !in w.mail
    ensures var w' := Run(Begin(), more);
            && KeyOf(q, About(e)) in BoxOf(w', q).outgoing && BoxOf(w', q).outgoing[KeyOf(q, About(e))].outcome == Says(e)
            && KeyOf(Other(q), About(e)) in BoxOf(w', Other(q)).incoming && BoxOf(w', Other(q)).incoming[KeyOf(Other(q), About(e))].outcome == Says(e)
  {
    var w := Run(Begin(), steps);
    Reached(steps);
    assert MailOk(w, i3);
    RespondsIff(steps, Other(q), e, i3);
    var step1, step2 := DoRespond(Other(q), e, i3), DoSync(q, i3);
    RunSnoc(Begin(), steps, step1);
    ObservesIff(steps + [step1], q, i3);
    more := steps + [step1] + [step2];
    RunSnoc(Begin(), steps + [step1], step2);
  }

  /** After any run, a request under a new correlation, admitted while both clock readings are before its deadline, can be
      taken to any outcome: some continuation ends with both sides holding exactly what the responder reports. */
  lemma RequestCompletes(steps: seq<Step>, q: Side, request: Request, chosenAt: int, committedAt: int, e: Evidence, i1: MsgId, i2: MsgId, i3: MsgId)
    returns (more: seq<Step>)
    requires var w := Run(Begin(), steps);
             && KeyOf(q, request.correlation) !in BoxOf(w, q).outgoing
             && i1 !in w.mail && i2 !in w.mail && i3 !in w.mail && i1 != i2 && i1 != i3 && i2 != i3
    requires chosenAt < request.acceptBefore && committedAt < request.acceptBefore
    requires About(e) == request.correlation && !e.Accepted? && (e.Failed? ==> e.error.stage.Execution?)
    ensures var w' := Run(Begin(), more); var c := request.correlation;
            && KeyOf(q, c) in BoxOf(w', q).outgoing && AtRequester(w', q, c) == Says(e) && AtResponder(w', q, c) == Says(e)
  {
    var asked := Asked(steps, q, request, i1);
    var accepted := AcceptedInTime(asked, q, request.correlation, chosenAt, committedAt, i2);
    more := Reported(accepted, q, e, i3);
  }
}
