/**
 * The desktop client's session: concurrent requests that share an access token, a refresh token
 * and a refresh lock, with logins and logouts that take no lock.
 */
module ClientSession {
  import opened Wrappers

  // ---------- State ----------

  /** Access tokens; the server never issues one twice. */
  type Token = nat

  /** Why a request asks for a refresh: its token is about to expire, or was rejected. */
  datatype Cause = Expiring | Rejected(token: Token)

  /**
   * Where a request is; the places from Inside to Denying hold the refresh lock. basis is the
   * session token that the checks under the lock have seen last.
   */
  datatype Place =
    | Start
    | Examining
    | Waiting(cause: Cause)
    | Inside(cause: Cause)
    | Comparing(cause: Cause)
    | Judging(cause: Cause)
    | Reporting(cause: Cause)
    | Deciding(cause: Cause, basis: Option<Token>)
    | Calling(cause: Cause, basis: Option<Token>)
    | Denying(cause: Cause)
    | Returned(cause: Cause, ok: bool)
    | Ready
    | Sent
    | Clearing
    | Finished

  /** A request, with the tokens of the attempts it has sent. */
  datatype Request = Request(place: Place, sent: seq<Option<Token>>)

  /** A refresh call, with the session token it is made for. */
  datatype Call = Started(basis: Option<Token>) | Succeeded(basis: Option<Token>, token: Token)

  /** installed: the tokens that have ever been the session token. */
  datatype State = State(
    session: Option<Token>, refresh: Option<nat>, lock: Option<nat>, requests: map<nat, Request>,
    installed: set<Token>, calls: seq<Call>)

  // ---------- Steps ----------

  /** The server's answer to a refresh call; NoToken also stands for a lost connection. */
  datatype Answer = Renewed(token: Token) | Refused | NoToken

  datatype Reply = Unauthorized | Other

  datatype Step =
    | Begin(id: nat)
    | Preflight(id: nat, expiring: bool)
    | Acquire(id: nat)
    | Check(id: nat, expiring: bool)
    | Receive(id: nat, answer: Answer)
    | Forget(id: nat)
    | Resume(id: nat, rewound: bool, raw: bool)
    | Send(id: nat)
    | Handle(id: nat, reply: Reply, raw: bool)
    | SetToken(token: Option<Token>)
    | SetRefreshToken(refreshToken: Option<nat>)

  function At(s: State, id: nat): Place {
    if id in s.requests then s.requests[id].place else Finished
  }

  function Move(s: State, id: nat, place: Place): State
    requires id in s.requests
  {
    s.(requests := s.requests[id := s.requests[id].(place := place)])
  }

  /** Leaves the critical section of _try_refresh with a result. */
  function Release(s: State, id: nat, cause: Cause, ok: bool): State
    requires id in s.requests
  {
    Move(s, id, Returned(cause, ok)).(lock := None)
  }

  /** The local expiry test, which takes a missing token for expired. */
  predicate TakenForExpired(session: Option<Token>, expiring: bool) {
    session.None? || expiring
  }

  /** The next read before a request is sent: is there a token, and then, is it about to expire. */
  function DoPreflight(s: State, id: nat, expiring: bool): State
    requires id in s.requests
  {
    match s.requests[id].place
    case Start => Move(s, id, if s.session.Some? then Examining else Ready)
    case Examining => Move(s, id, if TakenForExpired(s.session, expiring) then Waiting(Expiring) else Ready)
    case _ => s
  }

  /** The comparison of the session token with the cause. */
  function DoCompare(s: State, id: nat, cause: Cause): State
    requires id in s.requests
  {
    match cause
    case Rejected(token) =>
      Move(s, id, if s.session != Some(token) then Reporting(cause) else Deciding(cause, s.session))
    case Expiring => Move(s, id, if s.session.Some? then Judging(cause) else Deciding(cause, None))
  }

  /** The next read of _try_refresh under the lock, up to the start of its call. */
  function DoCheck(s: State, id: nat, expiring: bool): State
    requires id in s.requests
  {
    match s.requests[id].place
    case Inside(cause) => if s.refresh.None? then Release(s, id, cause, false) else Move(s, id, Comparing(cause))
    case Comparing(cause) => DoCompare(s, id, cause)
    case Reporting(cause) => Release(s, id, cause, s.session.Some?)
    case Judging(cause) =>
      if TakenForExpired(s.session, expiring) then Move(s, id, Deciding(cause, s.session))
      else Release(s, id, cause, true)
    case Deciding(cause, basis) => Move(s, id, Calling(cause, basis)).(calls := s.calls + [Started(basis)])
    case _ => s
  }

  function DoReceive(s: State, id: nat, answer: Answer): State
    requires id in s.requests && s.requests[id].place.Calling?
  {
    var cause, basis := s.requests[id].place.cause, s.requests[id].place.basis;
    match answer
    case Renewed(token) =>
      if token in s.installed then s
      else
        Release(s, id, cause, true).(
          session := Some(token), installed := s.installed + {token}, calls := s.calls + [Succeeded(basis, token)])
    case Refused => Move(s, id, Denying(cause)).(session := None)
    case NoToken => Release(s, id, cause, false)
  }

  /** The first of the two assignments of clear_tokens. */
  function Clear(s: State, id: nat): State
    requires id in s.requests
  {
    Move(s, id, Clearing).(session := None)
  }

  function DoResume(s: State, id: nat, rewound: bool, raw: bool): State
    requires id in s.requests && s.requests[id].place.Returned?
  {
    var place := s.requests[id].place;
    match place.cause
    case Expiring => Move(s, id, if place.ok then Ready else Finished)
    case Rejected(_) =>
      if place.ok then Move(s, id, if rewound then Ready else Finished)
      else if raw then Move(s, id, Finished)
      else Clear(s, id)
  }

  function DoHandle(s: State, id: nat, reply: Reply, raw: bool): State
    requires id in s.requests && s.requests[id].place.Sent?
  {
    var sent := s.requests[id].sent;
    if reply.Other? then Move(s, id, Finished)
    else if |sent| == 1 && sent[0].Some? then Move(s, id, Waiting(Rejected(sent[0].value)))
    else if raw then Move(s, id, Finished)
    else Clear(s, id)
  }

  /**
   * One step of one request or of a login or logout, with at most one read or assignment of a
   * shared token; a step that is not possible changes nothing.
   */
  function Do(s: State, step: Step): State {
    match step
    case Begin(id) => if id in s.requests then s else s.(requests := s.requests[id := Request(Start, [])])
    case Preflight(id, expiring) => if id !in s.requests then s else DoPreflight(s, id, expiring)
    case Acquire(id) =>
      if !At(s, id).Waiting? || s.lock.Some? then s
      else Move(s, id, Inside(At(s, id).cause)).(lock := Some(id))
    case Check(id, expiring) => if id !in s.requests then s else DoCheck(s, id, expiring)
    case Receive(id, answer) => if !At(s, id).Calling? then s else DoReceive(s, id, answer)
    case Forget(id) =>
      if At(s, id).Denying? then Release(s, id, At(s, id).cause, false).(refresh := None)
      else if At(s, id).Clearing? then Move(s, id, Finished).(refresh := None)
      else s
    case Resume(id, rewound, raw) => if !At(s, id).Returned? then s else DoResume(s, id, rewound, raw)
    case Send(id) =>
      if !At(s, id).Ready? then s
      else s.(requests := s.requests[id := Request(Sent, s.requests[id].sent + [s.session])])
    case Handle(id, reply, raw) => if !At(s, id).Sent? then s else DoHandle(s, id, reply, raw)
    case SetToken(token) =>
      if token.None? then s.(session := None)
      else if token.value in s.installed then s
      else s.(session := token, installed := s.installed + {token.value})
    case SetRefreshToken(refreshToken) => s.(refresh := refreshToken)
  }

  function Run(s: State, steps: seq<Step>): State {
    if steps == [] then s else Do(Run(s, steps[..|steps| - 1]), steps[|steps| - 1])
  }

  predicate Initial(s: State) {
    s == State(None, None, None, map[], {}, [])
  }

  // ---------- The invariant ----------

  predicate Critical(place: Place) {
    || place.Inside? || place.Comparing? || place.Judging? || place.Reporting? || place.Deciding? || place.Calling?
    || place.Denying?
  }

  /** The session has moved past a token for good. */
  predicate Past(s: State, token: Token) {
    token in s.installed && s.session != Some(token)
  }

  predicate Replaced(calls: seq<Call>, token: Token) {
    exists i :: 0 <= i < |calls| && calls[i].Succeeded? && calls[i].basis == Some(token)
  }

  predicate CauseMatches(s: State, r: Request, cause: Cause) {
    match cause
    case Expiring => r.sent == []
    case Rejected(token) => r.sent == [Some(token)] && token in s.installed
  }

  /** At most two attempts, and the second does not carry the token of the first. */
  predicate AttemptsFine(sent: seq<Option<Token>>) {
    |sent| <= 2 && (|sent| == 2 ==> sent[0].Some? && sent[1] != sent[0])
  }

  predicate SentInstalled(s: State, sent: seq<Option<Token>>) {
    forall k :: 0 <= k < |sent| && sent[k].Some? ==> sent[k].value in s.installed
  }

  /** A call is made for the rejected token itself, and for no token that has been replaced. */
  predicate BasisFine(s: State, cause: Cause, basis: Option<Token>) {
    && (cause.Rejected? ==> basis == Some(cause.token))
    && (basis.Some? ==> basis.value in s.installed && !Replaced(s.calls, basis.value))
  }

  predicate RequestFine(s: State, r: Request) {
    && AttemptsFine(r.sent) && SentInstalled(s, r.sent)
    && match r.place
       case Start => r.sent == []
       case Examining => r.sent == []
       case Waiting(cause) => CauseMatches(s, r, cause)
       case Inside(cause) => CauseMatches(s, r, cause)
       case Comparing(cause) => CauseMatches(s, r, cause)
       case Judging(cause) => CauseMatches(s, r, cause) && cause.Expiring?
       case Reporting(cause) => CauseMatches(s, r, cause) && cause.Rejected? && Past(s, cause.token)
       case Denying(cause) => CauseMatches(s, r, cause)
       case Deciding(cause, basis) => CauseMatches(s, r, cause) && BasisFine(s, cause, basis)
       case Calling(cause, basis) => CauseMatches(s, r, cause) && BasisFine(s, cause, basis)
       case Returned(cause, ok) => CauseMatches(s, r, cause) && (cause.Rejected? && ok ==> Past(s, cause.token))
       case Ready => r.sent == [] || (|r.sent| == 1 && r.sent[0].Some? && Past(s, r.sent[0].value))
       case Sent => r.sent != []
       case Clearing => true
       case Finished => true
  }

  /** A replaced token is past, and later calls are not made for it. */
  predicate CallsFine(s: State) {
    && (forall i :: 0 <= i < |s.calls| && s.calls[i].Succeeded? && s.calls[i].basis.Some? ==>
          Past(s, s.calls[i].basis.value))
    && (forall i, j :: 0 <= i < j < |s.calls| && s.calls[i].Succeeded? && s.calls[i].basis.Some? ==>
          s.calls[j].basis != s.calls[i].basis)
  }

  predicate LockFine(s: State) {
    && (s.lock.Some? ==> s.lock.value in s.requests)
    && forall id :: id in s.requests ==> (Critical(s.requests[id].place) <==> s.lock == Some(id))
  }

  predicate Sound(s: State) {
    && (s.session.Some? ==> s.session.value in s.installed)
    && CallsFine(s) && LockFine(s)
    && forall id :: id in s.requests ==> RequestFine(s, s.requests[id])
  }

  // ---------- Every step keeps it ----------

  /** The session may lose its token or take one that was never installed. */
  predicate Onward(s: State, s': State) {
    && s.installed <= s'.installed
    && (s'.session == s.session || s'.session.None? ||
        (s'.session.value !in s.installed && s'.session.value in s'.installed))
  }

  /** The request has decided on a call or is in it. */
  predicate NearCall(place: Place) {
    place.Deciding? || place.Calling?
  }

  /** A request that is not near a refresh call does not look at the calls. */
  lemma RequestStays(s: State, s': State, r: Request)
    requires RequestFine(s, r) && Onward(s, s') && (NearCall(r.place) ==> s'.calls == s.calls)
    ensures RequestFine(s', r)
  {
  }

  lemma OthersAreNotCalling(s: State, id: nat, other: nat)
    requires LockFine(s) && id in s.requests && other in s.requests && id != other && Critical(s.requests[id].place)
    ensures !NearCall(s.requests[other].place)
  {
  }

  lemma CallsGrow(s: State, s': State, call: Call)
    requires CallsFine(s) && Onward(s, s') && s'.calls == s.calls + [call]
    requires call.basis.Some? ==> !Replaced(s.calls, call.basis.value)
    requires call.Succeeded? && call.basis.Some? ==> Past(s', call.basis.value)
    ensures CallsFine(s')
  {
    forall i, j | 0 <= i < j < |s'.calls| && s'.calls[i].Succeeded? && s'.calls[i].basis.Some?
      ensures s'.calls[j].basis != s'.calls[i].basis
    {
      assert s'.calls[i] == s.calls[i];
    }
  }

  lemma CurrentIsNotReplaced(s: State)
    requires CallsFine(s) && s.session.Some?
    ensures !Replaced(s.calls, s.session.value)
  {
  }

  /** One request moves within its own part of the protocol; the others only see the session go onward. */
  lemma MovedSound(s: State, s': State, id: nat)
    requires Sound(s) && id in s.requests && id in s'.requests && Onward(s, s') && s'.calls == s.calls
    requires s'.requests == s.requests[id := s'.requests[id]] && RequestFine(s', s'.requests[id])
    requires s'.session.Some? ==> s'.session.value in s'.installed
    requires LockFine(s')
    ensures Sound(s')
  {
    hide Replaced, LockFine, CallsFine;
    CallsStay(s, s');
    forall other | other in s'.requests && other != id ensures RequestFine(s', s'.requests[other]) {
      RequestStays(s, s', s.requests[other]);
    }
  }

  /** The holder of the lock moves on. */
  lemma HeldSound(s: State, id: nat, place: Place)
    requires Sound(s) && id in s.requests && Critical(s.requests[id].place) && Critical(place)
    requires RequestFine(s, s.requests[id].(place := place))
    ensures Sound(Move(s, id, place))
  {
    hide Replaced, CallsFine, RequestFine;
    RequestStays(s, Move(s, id, place), s.requests[id].(place := place));
    MovedSound(s, Move(s, id, place), id);
  }

  /** The holder of the lock gives it back. */
  lemma ReleasedSound(s: State, id: nat, cause: Cause, ok: bool)
    requires Sound(s) && id in s.requests && Critical(s.requests[id].place)
    requires RequestFine(s, s.requests[id].(place := Returned(cause, ok)))
    ensures Sound(Release(s, id, cause, ok))
  {
    hide Replaced, CallsFine, RequestFine;
    RequestStays(s, Release(s, id, cause, ok), s.requests[id].(place := Returned(cause, ok)));
    MovedSound(s, Release(s, id, cause, ok), id);
  }

  lemma CompareSound(s: State, id: nat)
    requires Sound(s) && At(s, id).Comparing?
    ensures Sound(DoCompare(s, id, At(s, id).cause))
  {
    hide Replaced, CallsFine, LockFine, Move, AttemptsFine, SentInstalled;
    var cause := At(s, id).cause;
    if s.session.Some? {
      CurrentIsNotReplaced(s);
    }
    match cause
    case Rejected(token) =>
      HeldSound(s, id, if s.session != Some(token) then Reporting(cause) else Deciding(cause, s.session));
    case Expiring =>
      HeldSound(s, id, if s.session.Some? then Judging(cause) else Deciding(cause, None));
  }

  /** The reads under the lock, up to the decision on a call. */
  lemma ReadSound(s: State, id: nat, expiring: bool)
    requires Sound(s) && id in s.requests && !s.requests[id].place.Deciding?
    ensures Sound(Do(s, Check(id, expiring)))
  {
    hide Replaced, CallsFine, LockFine, Move, Release, DoCompare, AttemptsFine, SentInstalled;
    match s.requests[id].place
    case Inside(cause) =>
      if s.refresh.None? {
        ReleasedSound(s, id, cause, false);
      } else {
        HeldSound(s, id, Comparing(cause));
      }
    case Comparing(cause) => CompareSound(s, id);
    case Reporting(cause) => ReleasedSound(s, id, cause, s.session.Some?);
    case Judging(cause) =>
      if TakenForExpired(s.session, expiring) {
        if s.session.Some? {
          CurrentIsNotReplaced(s);
        }
        HeldSound(s, id, Deciding(cause, s.session));
      } else {
        ReleasedSound(s, id, cause, true);
      }
    case _ =>
  }

  lemma StartSound(s: State, id: nat, expiring: bool)
    requires Sound(s) && At(s, id).Deciding?
    ensures Sound(Do(s, Check(id, expiring)))
  {
    hide Replaced;
    var s', basis := DoCheck(s, id, expiring), At(s, id).basis;
    if basis.Some? {
      StartedIsNotSuccess(s.calls, basis, basis.value);
    }
    CallsGrow(s, s', Started(basis));
    forall other | other in s'.requests && other != id ensures RequestFine(s', s'.requests[other]) {
      OthersAreNotCalling(s, id, other);
      RequestStays(s, s', s.requests[other]);
    }
  }

  lemma StartedIsNotSuccess(calls: seq<Call>, basis: Option<Token>, token: Token)
    ensures Replaced(calls + [Started(basis)], token) <==> Replaced(calls, token)
  {
    var more := calls + [Started(basis)];
    assert forall i :: 0 <= i < |calls| ==> more[i] == calls[i];
  }

  lemma RenewedSound(s: State, id: nat, token: Token)
    requires Sound(s) && At(s, id).Calling? && token !in s.installed
    ensures Sound(Do(s, Receive(id, Renewed(token))))
  {
    hide Replaced;
    var s' := DoReceive(s, id, Renewed(token));
    CallsGrow(s, s', Succeeded(At(s, id).basis, token));
    forall other | other in s'.requests && other != id ensures RequestFine(s', s'.requests[other]) {
      OthersAreNotCalling(s, id, other);
      RequestStays(s, s', s.requests[other]);
    }
  }

  lemma ReceiveSound(s: State, id: nat, answer: Answer)
    requires Sound(s)
    ensures Sound(Do(s, Receive(id, answer)))
  {
    hide Replaced, CallsFine;
    var s' := Do(s, Receive(id, answer));
    if At(s, id).Calling? {
      if answer.Renewed? {
        if answer.token !in s.installed {
          RenewedSound(s, id, answer.token);
        }
      } else {
        CallsStay(s, s');
        MovedSound(s, s', id);
      }
    }
  }

  lemma ForgetSound(s: State, id: nat)
    requires Sound(s)
    ensures Sound(Do(s, Forget(id)))
  {
    hide Replaced, CallsFine;
    var s' := Do(s, Forget(id));
    if At(s, id).Denying? || At(s, id).Clearing? {
      MovedSound(s, s', id);
    }
  }

  /** A request moves on outside the lock. */
  lemma PlacedSound(s: State, id: nat, place: Place)
    requires Sound(s) && id in s.requests && !Critical(s.requests[id].place) && !Critical(place)
    requires RequestFine(s, s.requests[id].(place := place))
    ensures Sound(Move(s, id, place))
  {
    hide Replaced, CallsFine, RequestFine;
    RequestStays(s, Move(s, id, place), s.requests[id].(place := place));
    MovedSound(s, Move(s, id, place), id);
  }

  lemma ClearSound(s: State, id: nat)
    requires Sound(s) && id in s.requests && !Critical(s.requests[id].place)
    ensures Sound(Clear(s, id))
  {
    hide Replaced, CallsFine;
    MovedSound(s, Clear(s, id), id);
  }

  lemma ResumeSound(s: State, id: nat, rewound: bool, raw: bool)
    requires Sound(s)
    ensures Sound(Do(s, Resume(id, rewound, raw)))
  {
    hide Replaced, CallsFine, LockFine, Move, Clear;
    if At(s, id).Returned? {
      var place := At(s, id);
      if place.cause.Rejected? && !place.ok && !raw {
        ClearSound(s, id);
      } else {
        PlacedSound(s, id, if place.ok && (place.cause.Rejected? ==> rewound) then Ready else Finished);
      }
    }
  }

  lemma HandleSound(s: State, id: nat, reply: Reply, raw: bool)
    requires Sound(s)
    ensures Sound(Do(s, Handle(id, reply, raw)))
  {
    hide Replaced, CallsFine, LockFine, Move, Clear;
    if At(s, id).Sent? {
      var sent := s.requests[id].sent;
      if reply.Unauthorized? && |sent| == 1 && sent[0].Some? {
        assert sent == [Some(sent[0].value)];
        PlacedSound(s, id, Waiting(Rejected(sent[0].value)));
      } else if reply.Unauthorized? && !raw {
        ClearSound(s, id);
      } else {
        PlacedSound(s, id, Finished);
      }
    }
  }

  lemma SendSound(s: State, id: nat)
    requires Sound(s)
    ensures Sound(Do(s, Send(id)))
  {
    hide Replaced, CallsFine;
    if At(s, id).Ready? {
      MovedSound(s, Do(s, Send(id)), id);
    }
  }

  lemma AcquireSound(s: State, id: nat)
    requires Sound(s)
    ensures Sound(Do(s, Acquire(id)))
  {
    hide Replaced, CallsFine;
    if At(s, id).Waiting? && s.lock.None? {
      MovedSound(s, Do(s, Acquire(id)), id);
    }
  }

  lemma PreflightSound(s: State, id: nat, expiring: bool)
    requires Sound(s)
    ensures Sound(Do(s, Preflight(id, expiring)))
  {
    hide Replaced, CallsFine, LockFine, Move;
    if At(s, id).Start? {
      PlacedSound(s, id, if s.session.Some? then Examining else Ready);
    } else if At(s, id).Examining? {
      PlacedSound(s, id, if TakenForExpired(s.session, expiring) then Waiting(Expiring) else Ready);
    }
  }

  lemma BeginSound(s: State, id: nat)
    requires Sound(s)
    ensures Sound(Do(s, Begin(id)))
  {
    hide Replaced;
    var s' := Do(s, Begin(id));
    if id !in s.requests {
      CallsStay(s, s');
      forall other | other in s'.requests && other != id ensures RequestFine(s', s'.requests[other]) {
        RequestStays(s, s', s.requests[other]);
      }
    }
  }

  /** Logins and logouts take no lock and may come at any time. */
  lemma UnlockedWriteSound(s: State, s': State)
    requires Sound(s) && Onward(s, s')
    requires s'.requests == s.requests && s'.lock == s.lock && s'.calls == s.calls
    requires s'.session.Some? ==> s'.session.value in s'.installed
    ensures Sound(s')
  {
    hide Replaced, CallsFine;
    CallsStay(s, s');
    forall id | id in s'.requests ensures RequestFine(s', s'.requests[id]) {
      RequestStays(s, s', s.requests[id]);
    }
  }

  lemma StepSound(s: State, step: Step)
    requires Sound(s)
    ensures Sound(Do(s, step))
  {
    match step
    case Begin(id) => BeginSound(s, id);
    case Preflight(id, expiring) => PreflightSound(s, id, expiring);
    case Acquire(id) => AcquireSound(s, id);
    case Check(id, expiring) =>
      if At(s, id).Deciding? {
        StartSound(s, id, expiring);
      } else if id in s.requests {
        ReadSound(s, id, expiring);
      }
    case Receive(id, answer) => ReceiveSound(s, id, answer);
    case Forget(id) => ForgetSound(s, id);
    case Resume(id, rewound, raw) => ResumeSound(s, id, rewound, raw);
    case Send(id) => SendSound(s, id);
    case Handle(id, reply, raw) => HandleSound(s, id, reply, raw);
    case SetToken(token) => UnlockedWriteSound(s, Do(s, step));
    case SetRefreshToken(refreshToken) => UnlockedWriteSound(s, Do(s, step));
  }

  lemma CallsStay(s: State, s': State)
    requires CallsFine(s) && Onward(s, s') && s'.calls == s.calls
    ensures CallsFine(s')
  {
  }

  lemma {:induction false} RunSound(s: State, steps: seq<Step>)
    requires Initial(s)
    ensures Sound(Run(s, steps))
  {
    hide Do, CallsFine, LockFine, RequestFine;
    if steps == [] {
      NothingIsSound(s);
    } else {
      RunSound(s, steps[..|steps| - 1]);
      StepSound(Run(s, steps[..|steps| - 1]), steps[|steps| - 1]);
    }
  }

  lemma NothingIsSound(s: State)
    requires Initial(s)
    ensures Sound(s)
  {
  }

  // ---------- Theorems over every interleaving ----------

  /** A token is replaced by a successful refresh at most once, and no later call is made for it. */
  lemma ReplacedOnce(s: State, steps: seq<Step>, i: nat, j: nat)
    requires Initial(s) && i < j < |Run(s, steps).calls|
    requires var first := Run(s, steps).calls[i]; first.Succeeded? && first.basis.Some?
    ensures Run(s, steps).calls[j].basis != Run(s, steps).calls[i].basis
  {
    hide Do, RequestFine, LockFine;
    RunSound(s, steps);
  }

  /**
   * Whoever still holds a replaced token never decides on a call: the comparison under the lock
   * sends it to report whether there is a newer token, and that changes nothing else.
   */
  lemma LateHolderMakesNoCall(s: State, steps: seq<Step>, id: nat, token: Token, expiring: bool)
    requires Initial(s) && Replaced(Run(s, steps).calls, token)
    ensures var now := Run(s, steps);
      && !(NearCall(At(now, id)) && At(now, id).cause == Rejected(token))
      && (At(now, id) == Comparing(Rejected(token)) ==>
            Do(now, Check(id, expiring)) == Move(now, id, Reporting(Rejected(token))))
      && (At(now, id) == Reporting(Rejected(token)) ==>
            Do(now, Check(id, expiring)) == Release(now, id, Rejected(token), now.session.Some?))
  {
    hide Run;
    RunSound(s, steps);
  }

  /** A request is sent at most twice, the second time never with the token that was rejected. */
  lemma SentAtMostTwice(s: State, steps: seq<Step>, id: nat)
    requires Initial(s) && id in Run(s, steps).requests
    ensures var sent := Run(s, steps).requests[id].sent;
      |sent| <= 2 && (|sent| == 2 ==> sent[0].Some? && sent[1] != sent[0])
  {
    hide Do, CallsFine, LockFine;
    RunSound(s, steps);
  }

  /** There is never more than one refresh call under way. */
  lemma OneCallAtATime(s: State, steps: seq<Step>, id: nat, other: nat)
    requires Initial(s) && At(Run(s, steps), id).Calling? && At(Run(s, steps), other).Calling?
    ensures id == other
  {
    hide Do, CallsFine, RequestFine;
    RunSound(s, steps);
  }
}
