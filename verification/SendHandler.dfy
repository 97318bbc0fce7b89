/**
 HandleSend (internal/dispatch/send_handler.go): one attempt to push to one recipient.

 The attempt is given twice. `Step` is one atomic statement of the handler, so that other
 workers may act between any two; `HandleSend` is the handler itself, proved to end exactly
 where running its statements back to back ends (`Drive`).
 */
module SendHandler {
  import opened Prelude
  import opened Store
  import opened TaskQueue

  /** provider.SendResult.Status, with the message id of a successful send. */
  datatype SendResult =
    | StatusUnknown
    | StatusSent(messageId: string)
    | StatusInvalidToken
    | StatusTransientError
    | StatusThrottled

  /** Everything the handler does not control, one field per statement. */
  datatype Environment = Environment(
    fetchUp: bool, allowed: bool, sendingUp: bool,
    credentialOk: bool, decryptOk: bool, adapterKnown: bool,
    result: SendResult, sentUp: bool, invalidUp: bool, failUp: bool)

  /** The statement a running attempt executes next. */
  datatype Pc =
    | Fetch
    | Limit
    | MarkSending
    | Credential
    | Decrypt
    | Adapter
    | Call
    | MarkSent(messageId: string)
    | MarkInvalid
    | Fail(code: ErrorCode, outcome: Outcome)
    | Returned(outcome: Outcome)

  /** Between reading a non-terminal row and returning. */
  predicate Working(pc: Pc) {
    !pc.Fetch? && !pc.Returned?
  }

  function Step(t: Tables, p: SendPayload, last: bool, pc: Pc, e: Environment): (Tables, Pc) {
    match pc
    case Fetch =>
      if !e.fetchUp || p.recipient !in t.recipients then (t, Returned(Failure))
      else if Terminal(t.recipients[p.recipient].status) then (t, Returned(Nil))
      else (t, Limit)
    case Limit =>
      (t, if e.allowed then MarkSending else Returned(Throttled))
    case MarkSending =>
      if !e.sendingUp || p.recipient !in t.recipients then (t, Returned(Failure))
      else (MarkRecipientSending(t, p.recipient), Credential)
    case Credential =>
      (t, if e.credentialOk then Decrypt else Fail(NoCredential, SkipRetry))
    case Decrypt =>
      (t, if e.decryptOk then Adapter else Fail(CredentialDecryptFailed, SkipRetry))
    case Adapter =>
      (t, if e.adapterKnown then Call else Fail(UnknownProvider, SkipRetry))
    case Call =>
      (t, match e.result
       case StatusSent(m) => MarkSent(m)
       case StatusInvalidToken => MarkInvalid
       case StatusThrottled => Returned(Throttled)
       case _ => if last then Fail(TransientErrorExhausted, Failure) else Returned(Failure))
    case MarkSent(m) =>
      if e.sentUp then (MarkRecipientSent(t, p.recipient, m), Returned(Nil))
      else (t, Returned(Failure))
    case MarkInvalid =>
      (if e.invalidUp then MarkDeviceStatus(t, p.device, Invalid) else t, Fail(InvalidToken, Nil))
    case Fail(code, o) =>
      (if e.failUp then MarkRecipientFailed(t, p.recipient, code) else t, Returned(o))
    case Returned(_) => (t, pc)
  }

  /** The statement meets a database error (a failed device-status write is only logged). */
  predicate Faulty(rowExists: bool, pc: Pc, e: Environment) {
    match pc
    case Fetch => !e.fetchUp || !rowExists
    case MarkSending => !e.sendingUp || !rowExists
    case MarkSent(_) => !e.sentUp
    case Fail(_, _) => !e.failUp
    case _ => false
  }

  /** Statements left at most; every step lowers it. */
  function Rank(pc: Pc): nat {
    match pc
    case Fetch => 9
    case Limit => 8
    case MarkSending => 7
    case Credential => 6
    case Decrypt => 5
    case Adapter => 4
    case Call => 3
    case MarkInvalid => 2
    case MarkSent(_) => 1
    case Fail(_, _) => 1
    case Returned(_) => 0
  }

  lemma StepLowersRank(t: Tables, p: SendPayload, last: bool, pc: Pc, e: Environment)
    requires !pc.Returned?
    ensures Rank(Step(t, p, last, pc, e).1) < Rank(pc)
  {
  }

  /** The rest of an attempt during which nobody else acts. */
  function Drive(t: Tables, p: SendPayload, last: bool, pc: Pc, e: Environment): (Tables, Outcome)
    decreases Rank(pc)
  {
    if pc.Returned? then (t, pc.outcome)
    else
      StepLowersRank(t, p, last, pc, e);
      var (t', pc') := Step(t, p, last, pc, e);
      Drive(t', p, last, pc', e)
  }

  // ----- what an attempt does, answer by answer -----

  /** Without a row, with a terminal one, or stopped before the `sending` write, nothing changes. */
  lemma NothingIsTouched(t: Tables, p: SendPayload, last: bool, e: Environment)
    ensures !e.fetchUp || p.recipient !in t.recipients ==> Drive(t, p, last, Fetch, e) == (t, Failure)
    ensures e.fetchUp && p.recipient in t.recipients ==>
              var status := t.recipients[p.recipient].status;
              && (status == Sent || status == Delivered || status == Status.Failed ==>
                    Drive(t, p, last, Fetch, e) == (t, Nil))
              && (status == Queued || status == Sending ==>
                    && (!e.allowed ==> Drive(t, p, last, Fetch, e) == (t, Throttled))
                    && (e.allowed && !e.sendingUp ==> Drive(t, p, last, Fetch, e) == (t, Failure)))
  {
    assert Step(t, p, last, Fetch, e).1.Limit? ==> Drive(t, p, last, Fetch, e) == Drive(t, p, last, Limit, e);
  }

  /** The attempt got as far as the `sending` write; the row is the one before it. */
  predicate Attempting(t: Tables, p: SendPayload, e: Environment) {
    && p.recipient in t.recipients
    && (t.recipients[p.recipient].status == Queued || t.recipients[p.recipient].status == Sending)
    && e.fetchUp && e.allowed && e.sendingUp
  }

  lemma DriveFromCredential(t: Tables, p: SendPayload, last: bool, e: Environment)
    requires Attempting(t, p, e)
    ensures Drive(t, p, last, Fetch, e) == Drive(MarkRecipientSending(t, p.recipient), p, last, Credential, e)
  {
    assert Drive(t, p, last, Fetch, e) == Drive(t, p, last, Limit, e);
    assert Drive(t, p, last, Limit, e) == Drive(t, p, last, MarkSending, e);
  }

  lemma DriveFromCall(t: Tables, p: SendPayload, last: bool, e: Environment)
    requires e.credentialOk && e.decryptOk && e.adapterKnown
    ensures Drive(t, p, last, Credential, e) == Drive(t, p, last, Call, e)
  {
    assert Drive(t, p, last, Credential, e) == Drive(t, p, last, Decrypt, e);
    assert Drive(t, p, last, Decrypt, e) == Drive(t, p, last, Adapter, e);
  }

  /**
   Without a credential, its decryption or an adapter, no push is tried: the row fails with a code
   of its own (or stays `sending` if that write is lost), and the queue is told not to retry.
   */
  lemma SetupDecides(t: Tables, p: SendPayload, last: bool, e: Environment)
    requires Attempting(t, p, e)
    ensures var (t', o) := Drive(t, p, last, Fetch, e);
      var row := t.recipients[p.recipient];
      && (!e.credentialOk && e.failUp ==>
            && o == SkipRetry
            && t' == t.(recipients := t.recipients[p.recipient :=
                 row.(status := Status.Failed, error := Some(NoCredential), attempts := row.attempts + 1)]))
      && (e.credentialOk && !e.decryptOk && e.failUp ==>
            && o == SkipRetry
            && t' == t.(recipients := t.recipients[p.recipient :=
                 row.(status := Status.Failed, error := Some(CredentialDecryptFailed), attempts := row.attempts + 1)]))
      && (e.credentialOk && e.decryptOk && !e.adapterKnown && e.failUp ==>
            && o == SkipRetry
            && t' == t.(recipients := t.recipients[p.recipient :=
                 row.(status := Status.Failed, error := Some(UnknownProvider), attempts := row.attempts + 1)]))
      && (!(e.credentialOk && e.decryptOk && e.adapterKnown) && !e.failUp ==>
            && o == SkipRetry
            && t' == t.(recipients := t.recipients[p.recipient :=
                 row.(status := Sending, attempts := row.attempts + 1)]))
  {
    DriveFromCredential(t, p, last, e);
    var t1 := MarkRecipientSending(t, p.recipient);
    if e.credentialOk {
      assert Drive(t1, p, last, Credential, e) == Drive(t1, p, last, Decrypt, e);
      if e.decryptOk { assert Drive(t1, p, last, Decrypt, e) == Drive(t1, p, last, Adapter, e); }
    }
  }

  /** The provider is called: the limiter allows, and credential and adapter are there. */
  predicate Calling(t: Tables, p: SendPayload, e: Environment) {
    Attempting(t, p, e) && e.credentialOk && e.decryptOk && e.adapterKnown
  }

  /** An accepted push makes the row `sent` with the provider's id; the device is left alone. */
  lemma SentDecides(t: Tables, p: SendPayload, last: bool, e: Environment)
    requires Calling(t, p, e) && e.result.StatusSent?
    ensures var (t', o) := Drive(t, p, last, Fetch, e);
      var row := t.recipients[p.recipient];
      && o == (if e.sentUp then Nil else Failure)
      && t' == t.(recipients := t.recipients[p.recipient :=
           if e.sentUp
           then row.(status := Sent, messageId := Some(e.result.messageId), attempts := row.attempts + 1)
           else row.(status := Sending, attempts := row.attempts + 1)])
  {
    DriveFromCredential(t, p, last, e);
    DriveFromCall(MarkRecipientSending(t, p.recipient), p, last, e);
  }

  /** An invalid token fails the row for good and takes the payload's device out of service. */
  lemma InvalidTokenDecides(t: Tables, p: SendPayload, last: bool, e: Environment)
    requires Calling(t, p, e) && e.result.StatusInvalidToken?
    ensures var (t', o) := Drive(t, p, last, Fetch, e);
      var row := t.recipients[p.recipient];
      && o == Nil
      && t' == t.(
           recipients := t.recipients[p.recipient :=
             if e.failUp
             then row.(status := Status.Failed, error := Some(InvalidToken), attempts := row.attempts + 1)
             else row.(status := Sending, attempts := row.attempts + 1)],
           devices := if e.invalidUp && p.device in t.devices
                      then t.devices[p.device := t.devices[p.device].(status := DeviceStatus.Invalid)] else t.devices)
  {
    DriveFromCredential(t, p, last, e);
    var t1 := MarkRecipientSending(t, p.recipient);
    DriveFromCall(t1, p, last, e);
    assert Drive(t1, p, last, Call, e) == Drive(t1, p, last, MarkInvalid, e);
  }

  /** A throttled push leaves the row `sending` and counts as no failure. */
  lemma ThrottledDecides(t: Tables, p: SendPayload, last: bool, e: Environment)
    requires Calling(t, p, e) && e.result.StatusThrottled?
    ensures var (t', o) := Drive(t, p, last, Fetch, e);
      var row := t.recipients[p.recipient];
      && o == Throttled
      && t' == t.(recipients := t.recipients[p.recipient := row.(status := Sending, attempts := row.attempts + 1)])
  {
    DriveFromCredential(t, p, last, e);
    DriveFromCall(MarkRecipientSending(t, p.recipient), p, last, e);
  }

  /** Any other answer is a failure to retry, and on the last attempt the row fails; the device is left alone. */
  lemma TransientDecides(t: Tables, p: SendPayload, last: bool, e: Environment)
    requires Calling(t, p, e) && (e.result.StatusTransientError? || e.result.StatusUnknown?)
    ensures var (t', o) := Drive(t, p, last, Fetch, e);
      var row := t.recipients[p.recipient];
      && o == Failure
      && t' == t.(recipients := t.recipients[p.recipient :=
           if last && e.failUp
           then row.(status := Status.Failed, error := Some(TransientErrorExhausted), attempts := row.attempts + 1)
           else row.(status := Sending, attempts := row.attempts + 1)])
  {
    DriveFromCredential(t, p, last, e);
    var t1 := MarkRecipientSending(t, p.recipient);
    DriveFromCall(t1, p, last, e);
    if last { assert Drive(t1, p, last, Call, e) == Drive(t1, p, last, Fail(TransientErrorExhausted, Failure), e); }
  }

  /** Logged, not returned, when the write fails. */
  method FailRecipient(db: Database, recipient: Id, code: ErrorCode, up: bool)
    modifies db
    ensures db.Snapshot() == if up then MarkRecipientFailed(old(db.Snapshot()), recipient, code)
                             else old(db.Snapshot())
  {
    db.ExecMarkRecipientFailed(recipient, code, up);
  }

  /** The switch on what the provider answered. */
  method RecordResult(db: Database, p: SendPayload, last: bool, e: Environment) returns (outcome: Outcome)
    modifies db
    ensures (db.Snapshot(), outcome) == Drive(old(db.Snapshot()), p, last, Call, e)
  {
    match e.result {
      case StatusSent(m) =>
        var ok := db.ExecMarkRecipientSent(p.recipient, m, e.sentUp);
        return if ok then Nil else Failure;
      case StatusInvalidToken =>
        ghost var goal := Drive(db.Snapshot(), p, last, MarkInvalid, e);
        db.ExecMarkDeviceStatus(p.device, Invalid, e.invalidUp);
        assert goal == Drive(db.Snapshot(), p, last, Fail(InvalidToken, Nil), e);
        FailRecipient(db, p.recipient, InvalidToken, e.failUp);
        return Nil;
      case StatusThrottled =>
        return Throttled;
      case _ =>
        if last {
          FailRecipient(db, p.recipient, TransientErrorExhausted, e.failUp);
        }
        return Failure;
    }
  }

  method HandleSend(db: Database, p: SendPayload, retryCount: Option<nat>, maxRetry: Option<nat>, e: Environment)
    returns (outcome: Outcome)
    modifies db
    ensures var last := retryCount.Some? && maxRetry.Some? && retryCount.value >= maxRetry.value;
      (db.Snapshot(), outcome) == Drive(old(db.Snapshot()), p, last, Fetch, e)
  {
    ghost var last := IsLastAttempt(retryCount, maxRetry);
    ghost var goal := Drive(db.Snapshot(), p, last, Fetch, e);

    var recipient := db.QueryRecipient(p.recipient, e.fetchUp);
    if recipient.None? {
      return Failure;
    }
    if Terminal(recipient.value.status) {
      return Nil;
    }
    assert goal == Drive(db.Snapshot(), p, last, Limit, e);

    if !e.allowed {
      return Throttled;
    }
    assert goal == Drive(db.Snapshot(), p, last, MarkSending, e);

    var ok := db.ExecMarkRecipientSending(p.recipient, e.sendingUp);
    if !ok {
      return Failure;
    }
    assert goal == Drive(db.Snapshot(), p, last, Credential, e);

    if !e.credentialOk {
      FailRecipient(db, p.recipient, NoCredential, e.failUp);
      return SkipRetry;
    }
    assert goal == Drive(db.Snapshot(), p, last, Decrypt, e);
    if !e.decryptOk {
      FailRecipient(db, p.recipient, CredentialDecryptFailed, e.failUp);
      return SkipRetry;
    }
    assert goal == Drive(db.Snapshot(), p, last, Adapter, e);
    if !e.adapterKnown {
      FailRecipient(db, p.recipient, UnknownProvider, e.failUp);
      return SkipRetry;
    }
    assert goal == Drive(db.Snapshot(), p, last, Call, e);

    outcome := RecordResult(db, p, IsLastAttempt(retryCount, maxRetry), e);
  }
}
