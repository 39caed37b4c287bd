/** The client's request helper as it runs when nothing interferes: one path through the session protocol. */
module ClientTool {
  import opened Wrappers
  import opened ClientSession

  /** What the server and the caller's files do during one request. */
  datatype Exchange = Exchange(
    expiring: bool, stillExpiring: bool, early: Answer, first: Reply, late: Answer, second: Reply, rewound: bool,
    raw: bool)

  datatype Outcome = Responded(reply: Reply) | SessionExpired | CannotRewind

  lemma OneMore(s: State, steps: seq<Step>, step: Step)
    ensures Run(s, steps + [step]) == Do(Run(s, steps), step)
  {
    assert (steps + [step])[..|steps|] == steps;
  }

  /** The checks of a refresh that nothing interferes with: whether it returns at once, and with what. */
  function EarlyResult(session: Option<Token>, refresh: Option<nat>, cause: Cause, expiring: bool): Option<bool> {
    if refresh.None? then Some(false)
    else if cause.Rejected? && session != Some(cause.token) then Some(session.Some?)
    else if cause.Expiring? && session.Some? && !expiring then Some(true)
    else None
  }

  /** A refresh call is made: there is a refresh token, and the session token is still the one that caused it. */
  predicate Calls(session: Option<Token>, refresh: Option<nat>, cause: Cause, expiring: bool) {
    && refresh.Some?
    && match cause
       case Rejected(token) => session == Some(token)
       case Expiring => session.None? || expiring
  }

  /** A refresh returns early exactly when no call is made, and then says whether both tokens are there. */
  lemma EarlyExactly(session: Option<Token>, refresh: Option<nat>, cause: Cause, expiring: bool)
    ensures EarlyResult(session, refresh, cause, expiring) ==
      if Calls(session, refresh, cause, expiring) then None else Some(refresh.Some? && session.Some?)
  {
  }

  // ---------- One request, by the tokens before it ----------

  /** The token is about to expire, and a refresh call is made for it. */
  predicate CallsEarly(session: Option<Token>, refresh: Option<nat>, w: Exchange) {
    session.Some? && w.expiring && refresh.Some? && w.stillExpiring
  }

  /** The request is sent. */
  predicate GoesOut(session: Option<Token>, refresh: Option<nat>, w: Exchange) {
    session.None? || !w.expiring || (refresh.Some? && (!w.stillExpiring || w.early.Renewed?))
  }

  /** The session token when the request is sent first. */
  function FirstToken(session: Option<Token>, refresh: Option<nat>, w: Exchange): Option<Token> {
    if CallsEarly(session, refresh, w) && w.early.Renewed? then Some(w.early.token) else session
  }

  /** The first attempt carries a token, is rejected, and the session is renewed. */
  predicate RenewedLate(session: Option<Token>, refresh: Option<nat>, w: Exchange) {
    && GoesOut(session, refresh, w) && FirstToken(session, refresh, w).Some?
    && w.first == Unauthorized && refresh.Some? && w.late.Renewed?
  }

  /** Both tokens are gone: a refresh was refused, or the last response is a rejection that the caller does not want. */
  predicate Drops(session: Option<Token>, refresh: Option<nat>, w: Exchange) {
    if !GoesOut(session, refresh, w) then CallsEarly(session, refresh, w) && w.early.Refused?
    else if RenewedLate(session, refresh, w) then w.rewound && w.second == Unauthorized && !w.raw
    else
      w.first == Unauthorized
      && (!w.raw || (FirstToken(session, refresh, w).Some? && refresh.Some? && w.late.Refused?))
  }

  function TokenLeft(session: Option<Token>, refresh: Option<nat>, w: Exchange): Option<Token> {
    if Drops(session, refresh, w) then None
    else if RenewedLate(session, refresh, w) then Some(w.late.token)
    else FirstToken(session, refresh, w)
  }

  /** What an uninterrupted refresh leaves. */
  function Refreshed(s: State, id: nat, cause: Cause, expiring: bool, answer: Answer): State
    requires id in s.requests
  {
    match EarlyResult(s.session, s.refresh, cause, expiring)
    case Some(ok) => Move(s, id, Returned(cause, ok))
    case None =>
      var called := Move(s, id, Returned(cause, answer.Renewed?)).(calls := s.calls + [Started(s.session)]);
      match answer
      case Renewed(token) =>
        called.(session := Some(token), installed := s.installed + {token},
                calls := called.calls + [Succeeded(s.session, token)])
      case Refused => called.(session := None, refresh := None)
      case NoToken => called
  }

  lemma RefreshKeeps(s: State, id: nat, cause: Cause, expiring: bool, answer: Answer)
    requires id in s.requests
    ensures var s' := Refreshed(s, id, cause, expiring, answer);
      && id in s'.requests && s'.requests[id].sent == s.requests[id].sent && s'.lock == s.lock
      && s'.installed <= s.installed + if answer.Renewed? then {answer.token} else {}
  {
  }

  /** Nothing but the place of the request differs. */
  predicate OnlyMoved(s: State, s': State, id: nat, place: Place) {
    id in s.requests && s' == Move(s, id, place)
  }

  lemma Begun(s: State, id: nat)
    requires id !in s.requests
    ensures Do(s, Begin(id)) == s.(requests := s.requests[id := Request(Start, [])])
  {
  }

  lemma TokenLookedAt(s: State, id: nat, expiring: bool)
    requires At(s, id) == Start && id in s.requests
    ensures OnlyMoved(s, Do(s, Preflight(id, expiring)), id, if s.session.Some? then Examining else Ready)
  {
  }

  lemma TokenExamined(s: State, id: nat, expiring: bool)
    requires At(s, id) == Examining && id in s.requests && s.session.Some?
    ensures OnlyMoved(s, Do(s, Preflight(id, expiring)), id, if expiring then Waiting(Expiring) else Ready)
  {
  }

  lemma RejectionHandled(s: State, id: nat, token: Token, raw: bool)
    requires At(s, id) == Sent && id in s.requests && s.requests[id].sent == [Some(token)]
    ensures OnlyMoved(s, Do(s, Handle(id, Unauthorized, raw)), id, Waiting(Rejected(token)))
  {
  }

  lemma Resumed(s: State, id: nat, rewound: bool, raw: bool)
    requires id in s.requests && At(s, id).Returned? && (At(s, id).ok || At(s, id).cause.Expiring? || raw)
    ensures OnlyMoved(s, Do(s, Resume(id, rewound, raw)), id,
                      if At(s, id).ok && (At(s, id).cause.Rejected? ==> rewound) then Ready else Finished)
  {
  }

  lemma ResumedByClearing(s: State, id: nat, rewound: bool)
    requires id in s.requests && At(s, id).Returned? && !At(s, id).ok && At(s, id).cause.Rejected?
    ensures Do(s, Resume(id, rewound, false)) == Clear(s, id)
  {
  }

  /** The lock taken, at a place of the checks. */
  function Locked(s: State, id: nat, place: Place): State
    requires id in s.requests
  {
    Move(s, id, place).(lock := Some(id))
  }

  lemma LockTaken(s: State, id: nat, cause: Cause)
    requires At(s, id) == Waiting(cause) && s.lock.None?
    ensures Do(s, Acquire(id)) == Locked(s, id, Inside(cause))
  {
  }

  lemma RefreshTokenRead(s: State, id: nat, cause: Cause, expiring: bool)
    requires id in s.requests && s.lock.None?
    ensures Do(Locked(s, id, Inside(cause)), Check(id, expiring)) ==
      if s.refresh.None? then Move(s, id, Returned(cause, false)) else Locked(s, id, Comparing(cause))
  {
  }

  lemma SessionTokenCompared(s: State, id: nat, cause: Cause, expiring: bool)
    requires id in s.requests && s.lock.None?
    ensures Do(Locked(s, id, Comparing(cause)), Check(id, expiring)) ==
      Locked(s, id, match cause
                    case Rejected(token) =>
                      if s.session != Some(token) then Reporting(cause) else Deciding(cause, s.session)
                    case Expiring => if s.session.Some? then Judging(cause) else Deciding(cause, None))
  {
  }

  lemma SessionTokenReported(s: State, id: nat, cause: Cause, expiring: bool)
    requires id in s.requests && s.lock.None?
    ensures Do(Locked(s, id, Reporting(cause)), Check(id, expiring)) == Move(s, id, Returned(cause, s.session.Some?))
  {
  }

  lemma SessionTokenJudged(s: State, id: nat, cause: Cause, expiring: bool)
    requires id in s.requests && s.lock.None? && s.session.Some?
    ensures Do(Locked(s, id, Judging(cause)), Check(id, expiring)) ==
      if expiring then Locked(s, id, Deciding(cause, s.session)) else Move(s, id, Returned(cause, true))
  {
  }

  lemma CallStarted(s: State, id: nat, cause: Cause, expiring: bool)
    requires id in s.requests && s.lock.None?
    ensures Do(Locked(s, id, Deciding(cause, s.session)), Check(id, expiring)) == Asked(s, id, cause)
  {
  }

  /** The refresh call is out, under the lock. */
  function Asked(s: State, id: nat, cause: Cause): State
    requires id in s.requests
  {
    Locked(s, id, Calling(cause, s.session)).(calls := s.calls + [Started(s.session)])
  }

  /** The steps that take an answer to its end. */
  function Answered(s: State, id: nat, answer: Answer): State {
    if answer.Refused? then Do(Do(s, Receive(id, answer)), Forget(id)) else Do(s, Receive(id, answer))
  }

  lemma RefreshedByAnswer(s: State, id: nat, cause: Cause, expiring: bool, answer: Answer)
    requires At(s, id) == Waiting(cause) && s.lock.None?
    requires EarlyResult(s.session, s.refresh, cause, expiring).None?
    requires answer.Renewed? ==> answer.token !in s.installed
    ensures Refreshed(s, id, cause, expiring, answer) == Answered(Asked(s, id, cause), id, answer)
  {
    hide EarlyResult;
    match answer
    case Renewed(token) => assert At(Asked(s, id, cause), id) == Calling(cause, s.session);
    case Refused =>
    case NoToken =>
  }

  lemma ReturnedAt(s: State, id: nat, cause: Cause, ok: bool)
    requires id in s.requests
    ensures var s' := Move(s, id, Returned(cause, ok));
      At(s', id) == Returned(cause, ok) && s'.session == s.session && s'.refresh == s.refresh
  {
  }

  /** What the answer leaves, and where. */
  lemma AnswerEnds(s: State, id: nat, cause: Cause, expiring: bool, answer: Answer)
    requires id in s.requests && EarlyResult(s.session, s.refresh, cause, expiring).None?
    ensures var s' := Refreshed(s, id, cause, expiring, answer);
      && At(s', id) == Returned(cause, answer.Renewed?)
      && s'.session == (if answer.Renewed? then Some(answer.token) else if answer.Refused? then None else s.session)
      && s'.refresh == (if answer.Refused? then None else s.refresh)
    ensures Answered(Asked(s, id, cause), id, answer) ==
      var received := Do(Asked(s, id, cause), Receive(id, answer));
      if answer.Refused? then Do(received, Forget(id)) else received
  {
    hide EarlyResult, Do;
  }

  /** A refresh that succeeds for a rejected token leaves another one. */
  lemma RefreshedIsPast(s: State, id: nat)
    requires Sound(s) && id in s.requests && At(s, id).Returned? && At(s, id).cause.Rejected?
    ensures At(s, id).ok ==> s.session != Some(At(s, id).cause.token)
  {
  }

  class Client {
    var sessionToken: Option<Token>
    var refreshToken: Option<nat>
    /** The steps of the protocol that the client has made. */
    ghost var trace: seq<Step>

    constructor ()
      ensures Valid() && trace == [] && sessionToken.None? && refreshToken.None?
    {
      sessionToken, refreshToken, trace := None, None, [];
    }

    ghost function Now(): State
      reads this
    {
      Run(State(None, None, None, map[], {}, []), trace)
    }

    ghost predicate Valid()
      reads this
    {
      Now().session == sessionToken && Now().refresh == refreshToken
    }

    ghost method Advance(step: Step)
      modifies this`trace
      ensures trace == old(trace) + [step] && Now() == Do(old(Now()), step)
    {
      OneMore(State(None, None, None, map[], {}, []), trace, step);
      trace := trace + [step];
    }

    method SetToken(token: Token)
      requires Valid() && token !in Now().installed
      modifies this
      ensures Valid() && trace == old(trace) + [ClientSession.SetToken(Some(token))]
      ensures sessionToken == Some(token) && refreshToken == old(refreshToken)
    {
      hide Run;
      sessionToken := Some(token);
      Advance(ClientSession.SetToken(Some(token)));
    }

    method SetRefreshToken(token: Option<nat>)
      requires Valid()
      modifies this
      ensures Valid() && trace == old(trace) + [ClientSession.SetRefreshToken(token)]
      ensures sessionToken == old(sessionToken) && refreshToken == token
    {
      hide Run;
      refreshToken := token;
      Advance(ClientSession.SetRefreshToken(token));
    }

    method ClearTokens()
      requires Valid()
      modifies this
      ensures Valid() && sessionToken.None? && refreshToken.None?
      ensures trace == old(trace) + [ClientSession.SetToken(None)] + [ClientSession.SetRefreshToken(None)]
    {
      hide Run;
      sessionToken := None;
      Advance(ClientSession.SetToken(None));
      refreshToken := None;
      Advance(ClientSession.SetRefreshToken(None));
    }

    /** The 401 branch of a request: the session token goes first, then the refresh token. */
    method Drop(ghost id: nat, ghost step: Step)
      requires Valid() && id in Now().requests && Do(Now(), step) == Clear(Now(), id)
      modifies this
      ensures Valid() && old(trace) <= trace && id in Now().requests
      ensures At(Now(), id) == Finished && Now().requests[id].sent == old(Now().requests[id].sent)
      ensures sessionToken.None? && refreshToken.None?
      ensures Now().calls == old(Now().calls) && Now().lock == old(Now().lock)
    {
      hide Run;
      sessionToken := None;
      Advance(step);
      refreshToken := None;
      Advance(Forget(id));
    }

    /** The checks under the lock, up to an early result or to the start of the call. */
    method CheckUnderLock(ghost id: nat, cause: Cause, expiring: bool) returns (early: Option<bool>)
      requires Valid() && At(Now(), id) == Waiting(cause) && Now().lock.None?
      modifies this
      ensures old(trace) <= trace && sessionToken == old(sessionToken) && refreshToken == old(refreshToken)
      ensures early == EarlyResult(old(sessionToken), old(refreshToken), cause, expiring)
      ensures Now() ==
        if early.Some? then Move(old(Now()), id, Returned(cause, early.value)) else Asked(old(Now()), id, cause)
    {
      hide Run, Do, Locked, Move, Asked;
      ghost var start := Now();
      Advance(Acquire(id));
      LockTaken(start, id, cause);
      Advance(Check(id, expiring));
      RefreshTokenRead(start, id, cause, expiring);
      if refreshToken.None? {
        return Some(false);
      }
      Advance(Check(id, expiring));
      SessionTokenCompared(start, id, cause, expiring);
      if cause.Rejected? && sessionToken != Some(cause.token) {
        Advance(Check(id, expiring));
        SessionTokenReported(start, id, cause, expiring);
        return Some(sessionToken.Some?);
      }
      if cause.Expiring? && sessionToken.Some? {
        Advance(Check(id, expiring));
        SessionTokenJudged(start, id, cause, expiring);
        if !expiring {
          return Some(true);
        }
      }
      Advance(Check(id, expiring));
      CallStarted(start, id, cause, expiring);
      early := None;
    }

    /** The assignments that an answer leads to; only a refusal clears the tokens. */
    method TakeAnswer(ghost id: nat, ghost start: State, ghost cause: Cause, answer: Answer) returns (ok: bool)
      requires id in start.requests && start.session == sessionToken && start.refresh == refreshToken
      requires Now() == Asked(start, id, cause) && (answer.Renewed? ==> answer.token !in start.installed)
      modifies this
      ensures old(trace) <= trace && ok == answer.Renewed?
      ensures Now() == Answered(Asked(start, id, cause), id, answer)
      ensures sessionToken ==
        (if answer.Renewed? then Some(answer.token) else if answer.Refused? then None else old(sessionToken))
      ensures refreshToken == (if answer.Refused? then None else old(refreshToken))
    {
      hide Run, Do, Asked;
      Advance(Receive(id, answer));
      match answer {
        case Renewed(token) =>
          sessionToken := Some(token);
          return true;
        case Refused =>
          sessionToken := None;
          refreshToken := None;
          Advance(Forget(id));
          return false;
        case NoToken =>
          return false;
      }
    }

    /**
     * The critical section of a refresh, from taking the lock to giving it back. A call is made only
     * when the token that caused it is still the session token; only a refusal clears the tokens.
     */
    method TryRefresh(ghost id: nat, cause: Cause, expiring: bool, answer: Answer) returns (ok: bool)
      requires Valid() && At(Now(), id) == Waiting(cause) && Now().lock.None?
      requires answer.Renewed? ==> answer.token !in Now().installed
      modifies this
      ensures Valid() && old(trace) <= trace
      ensures Now() == Refreshed(old(Now()), id, cause, expiring, answer)
      ensures At(Now(), id) == Returned(cause, ok)
      ensures var calls := Calls(old(sessionToken), old(refreshToken), cause, expiring);
        && ok == (if calls then answer.Renewed? else old(refreshToken).Some? && old(sessionToken).Some?)
        && sessionToken == (if calls && answer.Renewed? then Some(answer.token)
                            else if calls && answer.Refused? then None else old(sessionToken))
        && refreshToken == (if calls && answer.Refused? then None else old(refreshToken))
    {
      hide Run, Do, Move, Asked, Answered, EarlyResult;
      ghost var start := Now();
      EarlyExactly(sessionToken, refreshToken, cause, expiring);
      var early := CheckUnderLock(id, cause, expiring);
      if early.Some? {
        ReturnedAt(start, id, cause, early.value);
        return early.value;
      }
      RefreshedByAnswer(start, id, cause, expiring, answer);
      AnswerEnds(start, id, cause, expiring, answer);
      ok := TakeAnswer(id, start, cause, answer);
    }

    /** The local expiry check before anything is sent. */
    method Prepare(ghost id: nat, w: Exchange) returns (ok: bool)
      requires Valid() && id !in Now().requests && Now().lock.None?
      requires w.early.Renewed? ==> w.early.token !in Now().installed
      modifies this
      ensures Valid() && old(trace) <= trace && id in Now().requests && Now().requests[id].sent == []
      ensures At(Now(), id) == (if ok then Ready else Finished) && Now().lock.None?
      ensures ok == GoesOut(old(sessionToken), old(refreshToken), w)
      ensures sessionToken ==
        if !ok && CallsEarly(old(sessionToken), old(refreshToken), w) && w.early.Refused? then None
        else FirstToken(old(sessionToken), old(refreshToken), w)
      ensures refreshToken ==
        if !ok && CallsEarly(old(sessionToken), old(refreshToken), w) && w.early.Refused? then None
        else old(refreshToken)
      ensures Now().installed <= old(Now().installed) + if w.early.Renewed? then {w.early.token} else {}
    {
      hide Run, Do, Refreshed;
      ghost var start := Now();
      Advance(Begin(id));
      Begun(start, id);
      ghost var begun := Now();
      Advance(Preflight(id, w.expiring));
      TokenLookedAt(begun, id, w.expiring);
      ok := true;
      if sessionToken.Some? {
        ghost var examining := Now();
        Advance(Preflight(id, w.expiring));
        TokenExamined(examining, id, w.expiring);
        if w.expiring {
          RefreshKeeps(Now(), id, Expiring, w.stillExpiring, w.early);
          ok := TryRefresh(id, Expiring, w.stillExpiring, w.early);
          ghost var returned := Now();
          Advance(Resume(id, true, w.raw));
          Resumed(returned, id, true, w.raw);
        }
      }
    }

    /** A rejected first attempt: whether it may be sent again, and otherwise how the request ends. */
    method Renew(ghost id: nat, token: Token, w: Exchange) returns (again: bool, outcome: Outcome)
      requires Valid() && At(Now(), id) == Sent && Now().requests[id].sent == [Some(token)] && Now().lock.None?
      requires w.late.Renewed? ==> w.late.token !in Now().installed
      modifies this
      ensures Valid() && old(trace) <= trace && id in Now().requests
      ensures Now().requests[id].sent == [Some(token)] && Now().lock.None?
      ensures At(Now(), id) == if again then Ready else Finished
      ensures again ==> sessionToken != Some(token)
      ensures old(sessionToken) == Some(token) ==>
        var renewed := old(refreshToken).Some? && w.late.Renewed?;
        && again == (renewed && w.rewound)
        && (!again ==> outcome == if renewed then CannotRewind else Responded(Unauthorized))
        && (if renewed then sessionToken == Some(w.late.token) && refreshToken == old(refreshToken)
            else if !w.raw || (old(refreshToken).Some? && w.late.Refused?) then
              sessionToken.None? && refreshToken.None?
            else sessionToken == old(sessionToken) && refreshToken == old(refreshToken))
      ensures !again ==> outcome in {CannotRewind, Responded(Unauthorized)}
      ensures !again && outcome.Responded? && !w.raw ==> sessionToken.None? && refreshToken.None?
    {
      hide Run, Do, Refreshed, Sound;
      ghost var start := Now();
      Advance(Handle(id, Unauthorized, w.raw));
      RejectionHandled(start, id, token, w.raw);
      RefreshKeeps(Now(), id, Rejected(token), w.stillExpiring, w.late);
      var refreshed := TryRefresh(id, Rejected(token), w.stillExpiring, w.late);
      again, outcome := refreshed && w.rewound, if refreshed then CannotRewind else Responded(Unauthorized);
      if refreshed || w.raw {
        SoundNow();
        RefreshedIsPast(Now(), id);
        ghost var returned := Now();
        Advance(Resume(id, w.rewound, w.raw));
        Resumed(returned, id, w.rewound, w.raw);
      } else {
        ResumedByClearing(Now(), id, w.rewound);
        Drop(id, Resume(id, w.rewound, w.raw));
      }
    }

    /** The last response of a request. */
    method Conclude(ghost id: nat, reply: Reply, w: Exchange)
      requires Valid() && At(Now(), id) == Sent
      requires reply == Unauthorized ==> !(|Now().requests[id].sent| == 1 && Now().requests[id].sent[0].Some?)
      modifies this
      ensures Valid() && old(trace) <= trace && id in Now().requests && At(Now(), id) == Finished
      ensures Now().requests[id].sent == old(Now().requests[id].sent)
      ensures sessionToken == (if reply == Unauthorized && !w.raw then None else old(sessionToken))
      ensures refreshToken == (if reply == Unauthorized && !w.raw then None else old(refreshToken))
    {
      hide Run;
      if reply == Unauthorized && !w.raw {
        Drop(id, Handle(id, reply, w.raw));
      } else {
        Advance(Handle(id, reply, w.raw));
      }
    }

    /**
     * One request: refreshed at most once beforehand, sent at most twice, and retried only after a
     * refresh that succeeded. A rejection that is final drops both tokens unless the caller asked
     * for the raw response.
     */
    method ApiRequest(ghost id: nat, w: Exchange) returns (sends: nat, outcome: Outcome)
      requires Valid() && id !in Now().requests && Now().lock.None?
      requires w.early.Renewed? ==> w.early.token !in Now().installed
      requires w.late.Renewed? ==> w.late.token !in Now().installed
      requires w.early.Renewed? && w.late.Renewed? ==> w.early.token != w.late.token
      modifies this
      ensures Valid() && old(trace) <= trace && id in Now().requests
      ensures At(Now(), id) == Finished && sends == |Now().requests[id].sent| <= 2
      ensures sends == 0 <==> outcome == SessionExpired
      ensures sends == 2 ==>
        var sent := Now().requests[id].sent; sent[0].Some? && sent[1] != sent[0]
      ensures sends > 0 && outcome.Responded? ==> outcome.reply == if sends == 1 then w.first else w.second
      ensures outcome == Responded(Unauthorized) && !w.raw ==> sessionToken.None? && refreshToken.None?
      ensures sends > 0 <==> GoesOut(old(sessionToken), old(refreshToken), w)
      ensures sends == 2 <==> RenewedLate(old(sessionToken), old(refreshToken), w) && w.rewound
      ensures outcome == CannotRewind <==> RenewedLate(old(sessionToken), old(refreshToken), w) && !w.rewound
      ensures sends > 0 ==> Now().requests[id].sent[0] == FirstToken(old(sessionToken), old(refreshToken), w)
      ensures sends == 2 ==> Now().requests[id].sent[1] == Some(w.late.token)
      ensures sessionToken == TokenLeft(old(sessionToken), old(refreshToken), w)
      ensures refreshToken == if Drops(old(sessionToken), old(refreshToken), w) then None else old(refreshToken)
    {
      hide Run, Refreshed, GoesOut, FirstToken;
      ghost var session0, refresh0 := sessionToken, refreshToken;
      sends := 0;
      var ready := Prepare(id, w);
      if !ready {
        return 0, SessionExpired;
      }
      for attempt := 0 to 2
        invariant Valid() && old(trace) <= trace && id in Now().requests && Now().lock.None? && attempt < 2
        invariant At(Now(), id) == Ready && sends == attempt == |Now().requests[id].sent|
        invariant attempt == 0 && w.late.Renewed? ==> w.late.token !in Now().installed
        invariant attempt == 1 ==> Now().requests[id].sent[0].Some? && sessionToken != Now().requests[id].sent[0]
        invariant refreshToken == refresh0
        invariant attempt == 0 ==> sessionToken == FirstToken(session0, refresh0, w)
        invariant attempt == 1 ==> RenewedLate(session0, refresh0, w) && w.rewound && sessionToken == Some(w.late.token)
        invariant attempt == 1 ==> Now().requests[id].sent[0] == FirstToken(session0, refresh0, w)
      {
        var requestToken := sessionToken;
        Advance(Send(id));
        sends := sends + 1;
        var reply := if attempt == 0 then w.first else w.second;
        if reply == Unauthorized && attempt == 0 && requestToken.Some? {
          assert Now().requests[id].sent == [Some(requestToken.value)];
          var again;
          again, outcome := Renew(id, requestToken.value, w);
          if !again {
            return;
          }
        } else {
          Conclude(id, reply, w);
          return sends, Responded(reply);
        }
      }
      assert false;
    }

    /** The protocol's invariant holds of whatever the client has done. */
    lemma SoundNow()
      ensures Sound(Now())
    {
      RunSound(State(None, None, None, map[], {}, []), trace);
    }
  }
}
