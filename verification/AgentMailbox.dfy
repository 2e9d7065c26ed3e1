/**
 The request and evidence protocol of packages/client/src/agent-mailbox.ts.

 A requester submits a request under a correlation id; the responder admits it before its
 deadline or not, and later reports an outcome. Both sides replay their durable inbox, each
 message once. The second half runs two honest mailboxes against each other in both directions,
 with messages arriving in any order.
 */
module AgentMailbox {

  type MsgId = nat
  type PeerId = nat
  type Correlation = string
  type Json = string

  datatype Stage = Admission | Execution

  datatype Request = Request(correlation: Correlation, capability: string, acceptBefore: int, input: Json)

  datatype Failure = Failure(correlation: Correlation, stage: Stage, code: string, message: string)

  datatype Evidence =
    | Accepted(of: Correlation)
    | Completed(of: Correlation, value: Json)
    | Failed(error: Failure)

  function About(e: Evidence): Correlation {
    if e.Failed? then e.error.correlation else e.of
  }

  datatype Outcome =
    | AwaitingAdmission
    | AwaitingEvidence
    | Admitted
    | Done(value: Json)
    | Failing(error: Failure)

  datatype Code =
    | InvalidEnvelope | CorrelationConflict | UnknownCorrelation | ConflictingEvidence
    | NotAccepted | InvalidTransition | NotFound | PeerNotAllowed

  datatype Result<+T> = Ok(value: T) | Err(code: Code)

  predicate Terminal(x: Outcome) {
    x.Done? || x.Failing?
  }

  /** The transition function shared by both sides. */
  function Apply(previous: Outcome, e: Evidence): Result<Outcome> {
    if e.Accepted? then
      if previous.Failing? && previous.error.stage.Admission? then Err(ConflictingEvidence)
      else Ok(if previous.AwaitingEvidence? then Admitted else previous)
    else
      var next := if e.Failed? then Failing(e.error) else Done(e.value);
      if Terminal(previous) then (if previous == next then Ok(previous) else Err(ConflictingEvidence))
      else if previous.Admitted? && e.Failed? && e.error.stage.Admission? then Err(ConflictingEvidence)
      else Ok(next)
  }

  // ---- One device ----

  datatype Out = Out(request: Request, messageId: MsgId, outcome: Outcome)

  datatype In = In(request: Request, outcome: Outcome)

  datatype Content = Ask(request: Request) | Tell(evidence: Evidence) | Malformed

  datatype Letter = Letter(id: MsgId, from: PeerId, content: Content)

  datatype Box = Box(
    allowed: set<PeerId>,
    outgoing: map<(PeerId, Correlation), Out>,
    incoming: map<(PeerId, Correlation), In>,
    seen: set<MsgId>,
    rejected: map<MsgId, Code>)

  /** The body of the transaction for one inbox entry. */
  function Observe(box: Box, letter: Letter): Result<Box> {
    match letter.content
    case Malformed => Err(InvalidEnvelope)
    case Ask(request) =>
      var key := (letter.from, request.correlation);
      if key in box.incoming && box.incoming[key].request != request then Err(CorrelationConflict)
      else if key in box.incoming then Ok(box)
      else Ok(box.(incoming := box.incoming[key := In(request, AwaitingAdmission)]))
    case Tell(evidence) =>
      var key := (letter.from, About(evidence));
      if key !in box.outgoing then Err(UnknownCorrelation)
      else
        match Apply(box.outgoing[key].outcome, evidence)
        case Err(code) => Err(code)
        case Ok(outcome) => Ok(box.(outgoing := box.outgoing[key := box.outgoing[key].(outcome := outcome)]))
  }

  /** One entry of the inbox: skipped if seen or not allowed, otherwise observed or recorded as rejected, once. */
  function SyncOne(box: Box, letter: Letter): Box {
    if letter.from !in box.allowed || letter.id in box.seen then box
    else
      match Observe(box, letter)
      case Ok(next) => next.(seen := next.seen + {letter.id})
      case Err(code) => box.(rejected := box.rejected[letter.id := code], seen := box.seen + {letter.id})
  }

  function SyncAll(box: Box, inbox: seq<Letter>): Box
    decreases |inbox|
  {
    if inbox == [] then box else SyncAll(SyncOne(box, inbox[0]), inbox[1..])
  }

  /** Replaying never drops an outgoing record or changes its request. */
  lemma {:induction false} SyncKeepsRequests(box: Box, inbox: seq<Letter>, key: (PeerId, Correlation))
    requires key in box.outgoing
    ensures key in SyncAll(box, inbox).outgoing && SyncAll(box, inbox).outgoing[key].request == box.outgoing[key].request
    ensures SyncAll(box, inbox).allowed == box.allowed
    decreases |inbox|
  {
    if inbox != [] {
      SyncKeepsRequests(SyncOne(box, inbox[0]), inbox[1..], key);
    }
  }

  /** A new submission is recorded and sent in one transaction; a repeat sends nothing. */
  datatype Submitted = Submitted(box: Box, letter: bool, result: Result<Outcome>)

  function Submit(box: Box, peer: PeerId, request: Request, id: MsgId): Submitted {
    var key := (peer, request.correlation);
    if peer !in box.allowed then Submitted(box, false, Err(PeerNotAllowed))
    else if key in box.outgoing && box.outgoing[key].request != request then Submitted(box, false, Err(CorrelationConflict))
    else if key in box.outgoing then Submitted(box, false, Ok(box.outgoing[key].outcome))
    else Submitted(box.(outgoing := box.outgoing[key := Out(request, id, AwaitingEvidence)]), true, Ok(AwaitingEvidence))
  }

  function Expired(correlation: Correlation): Failure {
    Failure(correlation, Admission, "admission_expired", "Admission deadline elapsed; work was not accepted")
  }

  datatype Decision = NewAdmission | ExistingDecision | Refused(code: Code)

  datatype AdmitResult = AdmitResult(box: Box, sent: seq<Evidence>, decision: Decision)

  /** The clock is read when the evidence is chosen, and again when the transaction commits; crossing
      the deadline in between rolls back and sends the expiry instead. */
  function Admit(box: Box, peer: PeerId, correlation: Correlation, chosenAt: int, committedAt: int): AdmitResult {
    var key := (peer, correlation);
    if peer !in box.allowed then AdmitResult(box, [], Refused(PeerNotAllowed))
    else if key !in box.incoming then AdmitResult(box, [], Refused(NotFound))
    else
      var entry := box.incoming[key];
      if !entry.outcome.AwaitingAdmission? then AdmitResult(box, [], ExistingDecision)
      else if chosenAt < entry.request.acceptBefore && committedAt < entry.request.acceptBefore then
        AdmitResult(box.(incoming := box.incoming[key := entry.(outcome := Admitted)]), [Accepted(correlation)], NewAdmission)
      else
        AdmitResult(box.(incoming := box.incoming[key := entry.(outcome := Failing(Expired(correlation)))]),
                    [Failed(Expired(correlation))], ExistingDecision)
  }

  datatype RespondResult = RespondResult(box: Box, sent: seq<Evidence>, result: Result<Outcome>)

  function Respond(box: Box, peer: PeerId, evidence: Evidence): RespondResult {
    var key := (peer, About(evidence));
    if evidence.Accepted? then RespondResult(box, [], Err(InvalidTransition))
    else if peer !in box.allowed then RespondResult(box, [], Err(PeerNotAllowed))
    else if key !in box.incoming then RespondResult(box, [], Err(NotFound))
    else
      var entry := box.incoming[key];
      var next :=
        if entry.outcome.AwaitingAdmission? then
          if evidence.Failed? && evidence.error.stage.Admission? then Ok(Failing(evidence.error)) else Err(NotAccepted)
        else Apply(entry.outcome, evidence);
      if next.Err? then RespondResult(box, [], next)
      else if next.value.AwaitingEvidence? then RespondResult(box, [], Err(InvalidTransition))
      else if next.value == entry.outcome then RespondResult(box, [], next)
      else RespondResult(box.(incoming := box.incoming[key := entry.(outcome := next.value)]), [evidence], next)
  }

  // ---- The mailbox object ----

  class Mailbox {
    const allowed: set<PeerId>
    var outgoing: map<(PeerId, Correlation), Out>
    var incoming: map<(PeerId, Correlation), In>
    var seen: set<MsgId>
    var rejected: map<MsgId, Code>

    ghost function View(): Box
      reads this
    {
      Box(allowed, outgoing, incoming, seen, rejected)
    }

    constructor (allowed: set<PeerId>)
      ensures View() == Box(allowed, map[], map[], {}, map[])
    {
      this.allowed := allowed;
      outgoing, incoming, seen, rejected := map[], map[], {}, map[];
    }

    /** Replay of the durable inbox. */
    method Sync(inbox: seq<Letter>)
      modifies this
      ensures View() == SyncAll(old(View()), inbox)
    {
      var i := 0;
      while i < |inbox|
        invariant 0 <= i <= |inbox|
        invariant SyncAll(View(), inbox[i..]) == SyncAll(old(View()), inbox)
      {
        SyncLetter(inbox[i]);
        i := i + 1;
      }
    }

    method SyncLetter(letter: Letter)
      modifies this
      ensures View() == SyncOne(old(View()), letter)
    {
      if letter.from !in allowed || letter.id in seen {
        return;
      }
      match letter.content {
        case Malformed =>
          rejected := rejected[letter.id := InvalidEnvelope];
        case Ask(request) =>
          var key := (letter.from, request.correlation);
          if key in incoming {
            if incoming[key].request != request {
              rejected := rejected[letter.id := CorrelationConflict];
            }
          } else {
            incoming := incoming[key := In(request, AwaitingAdmission)];
          }
        case Tell(evidence) =>
          var key := (letter.from, About(evidence));
          if key !in outgoing {
            rejected := rejected[letter.id := UnknownCorrelation];
          } else {
            match Apply(outgoing[key].outcome, evidence) {
              case Err(code) => rejected := rejected[letter.id := code];
              case Ok(outcome) => outgoing := outgoing[key := outgoing[key].(outcome := outcome)];
            }
          }
      }
      seen := seen + {letter.id};
    }

    /** Two clock readings, and a rollback when the second is past the deadline. */
    method AdmitRequest(inbox: seq<Letter>, peer: PeerId, correlation: Correlation, chosenAt: int, committedAt: int)
      returns (sent: seq<Evidence>, decision: Decision)
      modifies this
      ensures AdmitResult(View(), sent, decision) ==
              if peer in allowed then Admit(SyncAll(old(View()), inbox), peer, correlation, chosenAt, committedAt)
              else AdmitResult(old(View()), [], Refused(PeerNotAllowed))
    {
      if peer !in allowed {
        return [], Refused(PeerNotAllowed);
      }
      Sync(inbox);
      var key := (peer, correlation);
      if key !in incoming {
        return [], Refused(NotFound);
      }
      var entry := incoming[key];
      if !entry.outcome.AwaitingAdmission? {
        return [], ExistingDecision;
      }
      var accepting := chosenAt < entry.request.acceptBefore;
      if accepting && committedAt >= entry.request.acceptBefore {
        accepting := false;
      }
      var evidence := if accepting then Accepted(correlation) else Failed(Expired(correlation));
      var outcome := if accepting then Admitted else Failing(Expired(correlation));
      incoming := incoming[key := entry.(outcome := outcome)];
      return [evidence], if accepting then NewAdmission else ExistingDecision;
    }

    /** The record is written with the send; the inbox is replayed afterwards, so the answer may already
        carry evidence. */
    method SubmitRequest(inbox: seq<Letter>, peer: PeerId, request: Request, id: MsgId)
      returns (letter: bool, result: Result<Outcome>)
      modifies this
      ensures var r := Submit(old(View()), peer, request, id);
              && letter == r.letter
              && View() == (if r.result.Ok? then SyncAll(r.box, inbox) else old(View()))
              && (r.result.Err? ==> result == r.result)
              && (r.result.Ok? ==> (peer, request.correlation) in outgoing &&
                                   result == Ok(outgoing[(peer, request.correlation)].outcome) &&
                                   outgoing[(peer, request.correlation)].request == request)
    {
      if peer !in allowed {
        return false, Err(PeerNotAllowed);
      }
      var key := (peer, request.correlation);
      if key in outgoing && outgoing[key].request != request {
        return false, Err(CorrelationConflict);
      }
      letter := key !in outgoing;
      if letter {
        outgoing := outgoing[key := Out(request, id, AwaitingEvidence)];
      }
      SyncKeepsRequests(View(), inbox, key);
      Sync(inbox);
      return letter, Ok(outgoing[key].outcome);
    }

    method RespondWith(inbox: seq<Letter>, peer: PeerId, evidence: Evidence)
      returns (sent: seq<Evidence>, result: Result<Outcome>)
      modifies this
      ensures RespondResult(View(), sent, result) ==
              if !evidence.Accepted? && peer in allowed then Respond(SyncAll(old(View()), inbox), peer, evidence)
              else RespondResult(old(View()), [], Err(if evidence.Accepted? then InvalidTransition else PeerNotAllowed))
    {
      if evidence.Accepted? {
        return [], Err(InvalidTransition);
      }
      if peer !in allowed {
        return [], Err(PeerNotAllowed);
      }
      Sync(inbox);
      var key := (peer, About(evidence));
      if key !in incoming {
        return [], Err(NotFound);
      }
      var entry := incoming[key];
      if entry.outcome.AwaitingAdmission? {
        if !evidence.Failed? || !evidence.error.stage.Admission? {
          return [], Err(NotAccepted);
        }
        result := Ok(Failing(evidence.error));
      } else {
        result := Apply(entry.outcome, evidence);
      }
      if result.Err? {
        return [], result;
      }
      if result.value.AwaitingEvidence? {
        return [], Err(InvalidTransition);
      }
      if result.value == entry.outcome {
        return [], result;
      }
      incoming := incoming[key := entry.(outcome := result.value)];
      return [evidence], result;
    }
  }

  // ---- Two honest devices ----

  datatype Side = Left | Right

  function Other(s: Side): Side {
    if s.Left? then Right else Left
  }

  function PeerOf(s: Side): PeerId {
    if s.Left? then 1 else 0
  }

  /** A message the direct-message layer has accepted for delivery. */
  datatype Post = Post(from: Side, content: Content)

  /** A new admission: who admitted what, and when it was committed. */
  datatype Admitting = Admitting(side: Side, correlation: Correlation, at: int)

  /** `acceptMail` and `finalMail` remember which message carried the admission and the outcome. */
  datatype World = World(
    left: Box,
    right: Box,
    mail: map<MsgId, Post>,
    acceptMail: map<(Side, Correlation), MsgId>,
    finalMail: map<(Side, Correlation), MsgId>,
    admissions: seq<Admitting>)

  function BoxOf(w: World, s: Side): Box {
    if s.Left? then w.left else w.right
  }

  function WithBox(w: World, s: Side, box: Box): World {
    if s.Left? then w.(left := box) else w.(right := box)
  }

  function Begin(): World {
    World(Box({1}, map[], map[], {}, map[]), Box({0}, map[], map[], {}, map[]), map[], map[], map[], [])
  }

  datatype Step =
    | DoSubmit(s: Side, request: Request, id: MsgId)
    | DoSync(s: Side, id: MsgId)
    | DoAdmit(s: Side, correlation: Correlation, chosenAt: int, committedAt: int, id: MsgId)
    | DoRespond(s: Side, evidence: Evidence, id: MsgId)

  /** Evidence sent by `s`, under a fresh message id, and remembered by kind. */
  function Mailed(w: World, s: Side, sent: seq<Evidence>, id: MsgId): World {
    if sent == [] then w
    else
      var e := sent[0];
      var w1 := w.(mail := w.mail[id := Post(s, Tell(e))]);
      if e.Accepted? then w1.(acceptMail := w.acceptMail[(s, About(e)) := id])
      else w1.(finalMail := w.finalMail[(s, About(e)) := id])
  }

  function Next(w: World, step: Step): World {
    match step
    case DoSubmit(s, request, id) =>
      var r := Submit(BoxOf(w, s), PeerOf(s), request, id);
      if !r.letter || id in w.mail then w
      else WithBox(w, s, r.box).(mail := w.mail[id := Post(s, Ask(request))])
    case DoSync(s, id) =>
      if id !in w.mail || w.mail[id].from == s then w
      else WithBox(w, s, SyncOne(BoxOf(w, s), Letter(id, PeerOf(s), w.mail[id].content)))
    case DoAdmit(s, correlation, chosenAt, committedAt, id) =>
      var r := Admit(BoxOf(w, s), PeerOf(s), correlation, chosenAt, committedAt);
      if id in w.mail then w
      else
        var w1 := Mailed(WithBox(w, s, r.box), s, r.sent, id);
        if r.decision.NewAdmission? then w1.(admissions := w.admissions + [Admitting(s, correlation, committedAt)]) else w1
    case DoRespond(s, evidence, id) =>
      var r := Respond(BoxOf(w, s), PeerOf(s), evidence);
      if id in w.mail then w else Mailed(WithBox(w, s, r.box), s, r.sent, id)
  }

  function Run(w: World, steps: seq<Step>): World
    decreases |steps|
  {
    if steps == [] then w else Run(Next(w, steps[0]), steps[1..])
  }

  // ---- Invariant ----

  /** The responder's view of what `q` asked under `c`. */
  function AtResponder(w: World, q: Side, c: Correlation): Outcome {
    var box := BoxOf(w, Other(q));
    var key := (PeerOf(Other(q)), c);
    if key in box.incoming then box.incoming[key].outcome else AwaitingAdmission
  }

  function AtRequester(w: World, q: Side, c: Correlation): Outcome
    requires (PeerOf(q), c) in BoxOf(w, q).outgoing
  {
    BoxOf(w, q).outgoing[(PeerOf(q), c)].outcome
  }

  predicate AfterAdmission(x: Outcome) {
    x.Admitted? || x.Done? || (x.Failing? && x.error.stage.Execution?)
  }

  ghost predicate CorrelationOk(w: World, q: Side, c: Correlation) {
    var r := Other(q);
    var asked := (PeerOf(q), c) in BoxOf(w, q).outgoing;
    var known := (PeerOf(r), c) in BoxOf(w, r).incoming;
    var b := AtResponder(w, q, c);
    && (known ==> asked && BoxOf(w, r).incoming[(PeerOf(r), c)].request == BoxOf(w, q).outgoing[(PeerOf(q), c)].request)
    && !b.AwaitingEvidence?
    && (b.Failing? ==> b.error.correlation == c)
    && (AfterAdmission(b) <==> (r, c) in w.acceptMail)
    && (Terminal(b) <==> (r, c) in w.finalMail)
    && (asked ==>
          var a := AtRequester(w, q, c);
          && BoxOf(w, q).outgoing[(PeerOf(q), c)].request.correlation == c
          && !a.AwaitingAdmission?
          && (Terminal(a) ==> a == b)
          && (a.Admitted? ==> AfterAdmission(b))
          && (a.AwaitingEvidence? ==> (r, c) in w.acceptMail ==> w.acceptMail[(r, c)] !in BoxOf(w, q).seen)
          && (!Terminal(a) ==> (r, c) in w.finalMail ==> w.finalMail[(r, c)] !in BoxOf(w, q).seen))
  }

  /** Everything in the mail is what its sender stands by. */
  ghost predicate MailOk(w: World, id: MsgId) {
    if id !in w.mail then id !in w.left.seen && id !in w.right.seen
    else
      var post := w.mail[id];
      match post.content
      case Malformed => false
      case Ask(request) =>
        var key := (PeerOf(post.from), request.correlation);
        key in BoxOf(w, post.from).outgoing && BoxOf(w, post.from).outgoing[key].request == request
      case Tell(e) =>
        var q := Other(post.from);
        var b := AtResponder(w, q, About(e));
        && (PeerOf(q), About(e)) in BoxOf(w, q).outgoing
        && (if e.Accepted? then AfterAdmission(b)
            else if e.Failed? then b == Failing(e.error) else b == Done(e.value))
  }

  ghost predicate MemoOk(w: World, k: (Side, Correlation)) {
    && (k in w.acceptMail ==> w.acceptMail[k] in w.mail && w.mail[w.acceptMail[k]] == Post(k.0, Tell(Accepted(k.1))))
    && (k in w.finalMail ==>
          w.finalMail[k] in w.mail && w.mail[w.finalMail[k]].from == k.0 && w.mail[w.finalMail[k]].content.Tell? &&
          !w.mail[w.finalMail[k]].content.evidence.Accepted? && About(w.mail[w.finalMail[k]].content.evidence) == k.1)
  }

  /** Each admission happened before its deadline, and is the only one for its request. */
  ghost predicate AdmissionsOk(w: World) {
    && (forall i, j :: 0 <= i < j < |w.admissions| ==>
          w.admissions[i].side != w.admissions[j].side || w.admissions[i].correlation != w.admissions[j].correlation)
    && (forall i :: 0 <= i < |w.admissions| ==> AdmissionOk(w, w.admissions[i]))
  }

  ghost predicate AdmissionOk(w: World, x: Admitting) {
    var key := (PeerOf(x.side), x.correlation);
    && key in BoxOf(w, x.side).incoming
    && x.at < BoxOf(w, x.side).incoming[key].request.acceptBefore
    && AfterAdmission(BoxOf(w, x.side).incoming[key].outcome)
  }

  ghost predicate Inv(w: World) {
    && w.left.allowed == {1} && w.right.allowed == {0}
    && w.left.rejected == map[] && w.right.rejected == map[]
    && (forall q, c :: CorrelationOk(w, q, c))
    && (forall id :: MailOk(w, id))
    && (forall k :: MemoOk(w, k))
    && AdmissionsOk(w)
  }

  lemma BeginInv()
    ensures Inv(Begin())
  {
  }

  /** Only the box of `s` differs. */
  predicate OnlyBox(w: World, w': World, s: Side) {
    w' == WithBox(w, s, BoxOf(w', s))
  }

  lemma SubmitKeeps(w: World, s: Side, request: Request, id: MsgId)
    requires Inv(w)
    ensures Inv(Next(w, DoSubmit(s, request, id)))
  {
    var w' := Next(w, DoSubmit(s, request, id));
    if w' != w {
      forall q, c ensures CorrelationOk(w', q, c) {
        assert CorrelationOk(w, q, c);
        SubmitCorrelation(w, w', s, request, id, q, c);
      }
      forall k ensures MailOk(w', k) {
        assert MailOk(w, k);
        SubmitMail(w, w', s, request, id, k);
      }
      forall k ensures MemoOk(w', k) {
        assert MemoOk(w, k);
      }
      forall i | 0 <= i < |w.admissions| ensures AdmissionOk(w', w.admissions[i]) {
        assert AdmissionOk(w, w.admissions[i]);
      }
    }
  }

  ghost predicate Submits(w: World, w': World, s: Side, request: Request, id: MsgId) {
    var box := BoxOf(w, s);
    var key := (PeerOf(s), request.correlation);
    && key !in box.outgoing && id !in w.mail
    && w' == WithBox(w, s, box.(outgoing := box.outgoing[key := Out(request, id, AwaitingEvidence)])).(mail := w.mail[id := Post(s, Ask(request))])
  }

  lemma SubmitCorrelation(w: World, w': World, s: Side, request: Request, id: MsgId, q: Side, c: Correlation)
    requires Submits(w, w', s, request, id) && CorrelationOk(w, q, c)
    ensures CorrelationOk(w', q, c)
  {
    assert AtResponder(w', q, c) == AtResponder(w, q, c);
  }

  lemma SubmitMail(w: World, w': World, s: Side, request: Request, id: MsgId, k: MsgId)
    requires Submits(w, w', s, request, id) && MailOk(w, k)
    ensures MailOk(w', k)
  {
    if k in w.mail && w.mail[k].content.Tell? {
      var q, c := Other(w.mail[k].from), About(w.mail[k].content.evidence);
      assert AtResponder(w', q, c) == AtResponder(w, q, c);
    }
  }

  /** Honest evidence never conflicts, in whatever order it is applied. */
  lemma EvidenceApplies(w: World, s: Side, id: MsgId)
    requires id in w.mail && w.mail[id].from != s && w.mail[id].content.Tell?
    requires MailOk(w, id) && CorrelationOk(w, s, About(w.mail[id].content.evidence))
    ensures var e := w.mail[id].content.evidence; var key := (PeerOf(s), About(e));
            && key in BoxOf(w, s).outgoing
            && Apply(BoxOf(w, s).outgoing[key].outcome, e).Ok?
            && (e.Accepted? ==> !Apply(BoxOf(w, s).outgoing[key].outcome, e).value.AwaitingEvidence?)
            && (!e.Accepted? ==> Apply(BoxOf(w, s).outgoing[key].outcome, e).value == AtResponder(w, s, About(e)))
  {
  }

  lemma SyncKeeps(w: World, s: Side, id: MsgId)
    requires Inv(w)
    ensures Inv(Next(w, DoSync(s, id)))
  {
    if id in w.mail && w.mail[id].from != s && id !in BoxOf(w, s).seen {
      assert MailOk(w, id);
      match w.mail[id].content {
        case Malformed =>
        case Ask(request) => SyncAskKeeps(w, s, id, request);
        case Tell(e) => SyncTellKeeps(w, s, id, e);
      }
    }
  }

  /** A request observed for the first time, or again. */
  ghost predicate SyncsAsk(w: World, w': World, s: Side, id: MsgId, request: Request) {
    var box := BoxOf(w, s);
    var key := (PeerOf(s), request.correlation);
    && id in w.mail && w.mail[id] == Post(Other(s), Ask(request))
    && OnlyBox(w, w', s)
    && BoxOf(w', s) == box.(seen := box.seen + {id},
                            incoming := if key in box.incoming then box.incoming else box.incoming[key := In(request, AwaitingAdmission)])
  }

  lemma SyncAskCorrelation(w: World, w': World, s: Side, id: MsgId, request: Request, q: Side, c: Correlation)
    requires SyncsAsk(w, w', s, id, request) && CorrelationOk(w, q, c) && MemoOk(w, (Other(q), c)) && MailOk(w, id)
    ensures CorrelationOk(w', q, c)
  {
    assert AtResponder(w', q, c) == AtResponder(w, q, c);
  }

  lemma SyncAskMail(w: World, w': World, s: Side, id: MsgId, request: Request, k: MsgId)
    requires SyncsAsk(w, w', s, id, request) && MailOk(w, k)
    ensures MailOk(w', k)
  {
    if k in w.mail && w.mail[k].content.Tell? {
      var q, c := Other(w.mail[k].from), About(w.mail[k].content.evidence);
      assert AtResponder(w', q, c) == AtResponder(w, q, c);
    }
  }

  lemma SyncAskKeeps(w: World, s: Side, id: MsgId, request: Request)
    requires Inv(w) && id in w.mail && w.mail[id] == Post(Other(s), Ask(request)) && id !in BoxOf(w, s).seen
    ensures Inv(Next(w, DoSync(s, id)))
  {
    var w' := Next(w, DoSync(s, id));
    assert MailOk(w, id);
    assert SyncsAsk(w, w', s, id, request) by {
      assert CorrelationOk(w, Other(s), request.correlation);
    }
    forall q, c ensures CorrelationOk(w', q, c) {
      assert CorrelationOk(w, q, c) && MemoOk(w, (Other(q), c));
      SyncAskCorrelation(w, w', s, id, request, q, c);
    }
    forall k ensures MailOk(w', k) {
      assert MailOk(w, k);
      SyncAskMail(w, w', s, id, request, k);
    }
    forall k ensures MemoOk(w', k) {
      assert MemoOk(w, k);
    }
    forall i | 0 <= i < |w.admissions| ensures AdmissionOk(w', w.admissions[i]) {
      assert AdmissionOk(w, w.admissions[i]);
    }
  }

  /** Evidence observed. */
  ghost predicate SyncsTell(w: World, w': World, s: Side, id: MsgId, e: Evidence) {
    var box := BoxOf(w, s);
    var key := (PeerOf(s), About(e));
    && id in w.mail && w.mail[id] == Post(Other(s), Tell(e))
    && key in box.outgoing && Apply(box.outgoing[key].outcome, e).Ok?
    && OnlyBox(w, w', s)
    && BoxOf(w', s) == box.(seen := box.seen + {id},
                            outgoing := box.outgoing[key := box.outgoing[key].(outcome := Apply(box.outgoing[key].outcome, e).value)])
  }

  lemma SyncTellCorrelation(w: World, w': World, s: Side, id: MsgId, e: Evidence, q: Side, c: Correlation)
    requires SyncsTell(w, w', s, id, e) && CorrelationOk(w, q, c) && MemoOk(w, (Other(q), c)) && MailOk(w, id)
    ensures CorrelationOk(w', q, c)
  {
    assert AtResponder(w', q, c) == AtResponder(w, q, c);
    if q == s && c == About(e) {
      EvidenceApplies(w, s, id);
    }
  }

  lemma SyncTellMail(w: World, w': World, s: Side, id: MsgId, e: Evidence, k: MsgId)
    requires SyncsTell(w, w', s, id, e) && MailOk(w, k)
    ensures MailOk(w', k)
  {
    if k in w.mail && w.mail[k].content.Tell? {
      var q, c := Other(w.mail[k].from), About(w.mail[k].content.evidence);
      assert AtResponder(w', q, c) == AtResponder(w, q, c);
    }
  }

  lemma SyncTellKeeps(w: World, s: Side, id: MsgId, e: Evidence)
    requires Inv(w) && id in w.mail && w.mail[id] == Post(Other(s), Tell(e)) && id !in BoxOf(w, s).seen
    ensures Inv(Next(w, DoSync(s, id)))
  {
    var w' := Next(w, DoSync(s, id));
    assert MailOk(w, id) && CorrelationOk(w, s, About(e));
    EvidenceApplies(w, s, id);
    assert SyncsTell(w, w', s, id, e);
    forall q, c ensures CorrelationOk(w', q, c) {
      assert CorrelationOk(w, q, c) && MemoOk(w, (Other(q), c));
      SyncTellCorrelation(w, w', s, id, e, q, c);
    }
    forall k ensures MailOk(w', k) {
      assert MailOk(w, k);
      SyncTellMail(w, w', s, id, e, k);
    }
    forall k ensures MemoOk(w', k) {
      assert MemoOk(w, k);
    }
    forall i | 0 <= i < |w.admissions| ensures AdmissionOk(w', w.admissions[i]) {
      assert AdmissionOk(w, w.admissions[i]);
    }
  }

  /** The responder decides on, or concludes, a request it knows, and mails one piece of evidence. */
  ghost predicate Decides(w: World, s: Side, c: Correlation, e: Evidence, next: Outcome, id: MsgId) {
    var key := (PeerOf(s), c);
    && key in BoxOf(w, s).incoming && id !in w.mail && About(e) == c
    && var b := BoxOf(w, s).incoming[key].outcome;
    || (e.Accepted? && b.AwaitingAdmission? && next.Admitted?)
    || (e.Failed? && e.error.stage.Admission? && b.AwaitingAdmission? && next == Failing(e.error))
    || (e.Failed? && e.error.stage.Execution? && b.Admitted? && next == Failing(e.error))
    || (e.Completed? && b.Admitted? && next == Done(e.value))
  }

  function Decided(w: World, s: Side, c: Correlation, e: Evidence, next: Outcome, id: MsgId): World
    requires (PeerOf(s), c) in BoxOf(w, s).incoming
  {
    var box := BoxOf(w, s);
    var key := (PeerOf(s), c);
    Mailed(WithBox(w, s, box.(incoming := box.incoming[key := box.incoming[key].(outcome := next)])), s, [e], id)
  }

  /** What the responder holds after deciding: the new outcome for this request, the old ones otherwise. */
  lemma DecidedOutcome(w: World, s: Side, c: Correlation, e: Evidence, next: Outcome, id: MsgId, q: Side, d: Correlation)
    requires Decides(w, s, c, e, next, id)
    ensures AtResponder(Decided(w, s, c, e, next, id), q, d) == if q == Other(s) && d == c then next else AtResponder(w, q, d)
  {
  }

  lemma DecidedCorrelation(w: World, s: Side, c: Correlation, e: Evidence, next: Outcome, id: MsgId, q: Side, d: Correlation)
    requires Decides(w, s, c, e, next, id) && CorrelationOk(w, q, d) && MailOk(w, id)
    ensures CorrelationOk(Decided(w, s, c, e, next, id), q, d)
  {
    DecidedOutcome(w, s, c, e, next, id, q, d);
  }

  lemma DecidedMail(w: World, s: Side, c: Correlation, e: Evidence, next: Outcome, id: MsgId, k: MsgId)
    requires Decides(w, s, c, e, next, id) && CorrelationOk(w, Other(s), c) && MailOk(w, k)
    ensures MailOk(Decided(w, s, c, e, next, id), k)
  {
    if k == id {
      DecidedOutcome(w, s, c, e, next, id, Other(s), c);
    } else if k in w.mail && w.mail[k].content.Tell? {
      DecidedOutcome(w, s, c, e, next, id, Other(w.mail[k].from), About(w.mail[k].content.evidence));
    }
  }

  lemma DecidedMemo(w: World, s: Side, c: Correlation, e: Evidence, next: Outcome, id: MsgId, k: (Side, Correlation))
    requires Decides(w, s, c, e, next, id) && MemoOk(w, k)
    ensures MemoOk(Decided(w, s, c, e, next, id), k)
  {
  }

  lemma DecidedAdmission(w: World, s: Side, c: Correlation, e: Evidence, next: Outcome, id: MsgId, x: Admitting)
    requires Decides(w, s, c, e, next, id) && AdmissionOk(w, x)
    ensures AdmissionOk(Decided(w, s, c, e, next, id), x)
  {
  }

  lemma DecidedKeeps(w: World, s: Side, c: Correlation, e: Evidence, next: Outcome, id: MsgId)
    requires Inv(w) && Decides(w, s, c, e, next, id)
    ensures Inv(Decided(w, s, c, e, next, id))
  {
    var w' := Decided(w, s, c, e, next, id);
    assert MailOk(w, id) && CorrelationOk(w, Other(s), c);
    forall q, d ensures CorrelationOk(w', q, d) {
      assert CorrelationOk(w, q, d);
      DecidedCorrelation(w, s, c, e, next, id, q, d);
    }
    forall k ensures MailOk(w', k) {
      assert MailOk(w, k);
      DecidedMail(w, s, c, e, next, id, k);
    }
    forall k ensures MemoOk(w', k) {
      assert MemoOk(w, k);
      DecidedMemo(w, s, c, e, next, id, k);
    }
    forall i | 0 <= i < |w.admissions| ensures AdmissionOk(w', w.admissions[i]) {
      assert AdmissionOk(w, w.admissions[i]);
      DecidedAdmission(w, s, c, e, next, id, w.admissions[i]);
    }
  }

  lemma AdmitKeeps(w: World, s: Side, c: Correlation, chosenAt: int, committedAt: int, id: MsgId)
    requires Inv(w)
    ensures Inv(Next(w, DoAdmit(s, c, chosenAt, committedAt, id)))
  {
    var box := BoxOf(w, s);
    var key := (PeerOf(s), c);
    var w' := Next(w, DoAdmit(s, c, chosenAt, committedAt, id));
    if id !in w.mail && key in box.incoming && box.incoming[key].outcome.AwaitingAdmission? {
      var accepting := chosenAt < box.incoming[key].request.acceptBefore && committedAt < box.incoming[key].request.acceptBefore;
      if accepting {
        DecidedKeeps(w, s, c, Accepted(c), Admitted, id);
        var v := Decided(w, s, c, Accepted(c), Admitted, id);
        forall i | 0 <= i < |w.admissions| ensures w.admissions[i].side != s || w.admissions[i].correlation != c {
          assert AdmissionOk(w, w.admissions[i]);
        }
        AdmittedKeeps(w, v, w', Admitting(s, c, committedAt));
      } else {
        DecidedKeeps(w, s, c, Failed(Expired(c)), Failing(Expired(c)), id);
      }
    }
  }

  lemma AdmittedKeeps(w: World, v: World, w': World, x: Admitting)
    requires Inv(v) && v.admissions == w.admissions && w' == v.(admissions := w.admissions + [x]) && AdmissionOk(v, x)
    requires forall i :: 0 <= i < |w.admissions| ==> w.admissions[i].side != x.side || w.admissions[i].correlation != x.correlation
    ensures Inv(w')
  {
    forall q, d ensures CorrelationOk(w', q, d) {
      assert CorrelationOk(v, q, d);
    }
    forall k ensures MailOk(w', k) {
      assert MailOk(v, k);
    }
    forall k ensures MemoOk(w', k) {
      assert MemoOk(v, k);
    }
    forall i | 0 <= i < |w'.admissions| ensures AdmissionOk(w', w'.admissions[i]) {
      assert AdmissionOk(v, w'.admissions[i]);
    }
  }

  lemma RespondKeeps(w: World, s: Side, e: Evidence, id: MsgId)
    requires Inv(w)
    ensures Inv(Next(w, DoRespond(s, e, id)))
  {
    var r := Respond(BoxOf(w, s), PeerOf(s), e);
    if id !in w.mail && r.sent != [] {
      assert CorrelationOk(w, Other(s), About(e));
      DecidedKeeps(w, s, About(e), e, r.result.value, id);
    }
  }

  lemma {:induction false} RunKeeps(w: World, steps: seq<Step>)
    requires Inv(w)
    ensures Inv(Run(w, steps))
    decreases |steps|
  {
    if steps != [] {
      match steps[0] {
        case DoSubmit(s, request, id) => SubmitKeeps(w, s, request, id);
        case DoSync(s, id) => SyncKeeps(w, s, id);
        case DoAdmit(s, c, chosenAt, committedAt, id) => AdmitKeeps(w, s, c, chosenAt, committedAt, id);
        case DoRespond(s, e, id) => RespondKeeps(w, s, e, id);
      }
      RunKeeps(Next(w, steps[0]), steps[1..]);
    }
  }

  // ---- Main results ----

  /** What the two ends of a request say about it agree. */
  predicate Agree(a: Outcome, b: Outcome) {
    a == b || (a.AwaitingEvidence? && b.AwaitingAdmission?)
  }

  /** All the evidence `q` has been sent about `c` has reached it. */
  ghost predicate AllSeen(w: World, q: Side, c: Correlation) {
    forall id :: id in w.mail && w.mail[id].from == Other(q) && w.mail[id].content.Tell? && About(w.mail[id].content.evidence) == c ==>
                 id in BoxOf(w, q).seen
  }

  /** Convergence, after any run and in whatever order evidence arrived: neither side ever records a
      rejection; a terminal outcome at the requester is the responder's; and once all evidence about a
      request has been seen, both sides agree on it. */
  lemma Convergence(steps: seq<Step>, q: Side, c: Correlation)
    requires (PeerOf(q), c) in BoxOf(Run(Begin(), steps), q).outgoing
    ensures var w := Run(Begin(), steps);
            && w.left.rejected == map[] && w.right.rejected == map[]
            && (Terminal(AtRequester(w, q, c)) ==> AtRequester(w, q, c) == AtResponder(w, q, c))
            && (AllSeen(w, q, c) ==> Agree(AtRequester(w, q, c), AtResponder(w, q, c)))
  {
    BeginInv();
    RunKeeps(Begin(), steps);
    var w := Run(Begin(), steps);
    assert CorrelationOk(w, q, c) && MemoOk(w, (Other(q), c));
  }

  /** At most one new admission per request over the life of the responder, committed strictly before
      the deadline the requester set. */
  lemma AdmittedOnceInTime(steps: seq<Step>)
    ensures var w := Run(Begin(), steps);
            && (forall i, j :: 0 <= i < j < |w.admissions| ==>
                  w.admissions[i].side != w.admissions[j].side || w.admissions[i].correlation != w.admissions[j].correlation)
            && (forall i :: 0 <= i < |w.admissions| ==>
                  var x := w.admissions[i]; var q := Other(x.side);
                  && (PeerOf(q), x.correlation) in BoxOf(w, q).outgoing
                  && x.at < BoxOf(w, q).outgoing[(PeerOf(q), x.correlation)].request.acceptBefore)
  {
    BeginInv();
    RunKeeps(Begin(), steps);
    var w := Run(Begin(), steps);
    forall i | 0 <= i < |w.admissions|
      ensures var x := w.admissions[i]; var q := Other(x.side);
              && (PeerOf(q), x.correlation) in BoxOf(w, q).outgoing
              && x.at < BoxOf(w, q).outgoing[(PeerOf(q), x.correlation)].request.acceptBefore
    {
      var x := w.admissions[i];
      assert AdmissionOk(w, x) && CorrelationOk(w, Other(x.side), x.correlation);
    }
  }
}
