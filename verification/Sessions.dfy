/** Login by a chain of store commands: what one call does to the store, and what holds whenever the
    commands of any number of calls, from any number of gateways, are interleaved. */
module Sessions {
  import opened Wrappers
  import opened Redis
  import opened Seqs

  datatype Record = Record(token: string, player: string, client: string)

  /** The two key families of the store; keys do not expire here. */
  datatype Db = Db(idem: map<string, string>, sessions: map<string, Record>)

  /** A CreateSession call, by the command it is about to send. */
  datatype Call =
    | Reading(request: string, player: string, client: string)
    | Writing(request: string, player: string, client: string, token: string)
    | Expiring(request: string, token: string)
    | Claiming(request: string, token: string)
    | Losing(request: string, token: string)
    | Cleaning(request: string, token: string, winner: string)

  /** Then the call goes on, or returns: a token for kOk, nothing for kUnavailable. */
  datatype Next = Go(call: Call) | Done(result: Option<string>)

  function Lookup(db: Db, request: string): Option<string> {
    if request in db.idem && db.idem[request] != "" then Some(db.idem[request]) else None
  }

  /** One command. `newToken` is the token generated once the first lookup has found nothing; an error reply
      to that lookup counts as nothing found, and error replies to HSET and EXPIRE are not looked at. */
  function Do(db: Db, call: Call, reply: Reply, newToken: string): (Db, Next) {
    match call
    case Reading(request, player, client) =>
      if reply.Lost? then (db, Done(None))
      else if reply.Fine? && Lookup(db, request).Some? then (db, Done(Lookup(db, request)))
      else (db, Go(Writing(request, player, client, newToken)))
    case Writing(request, player, client, token) =>
      var written := db.(sessions := db.sessions[token := Record(token, player, client)]);
      (match reply
       case Fine => (written, Go(Expiring(request, token)))
       case Refused => (db, Go(Expiring(request, token)))
       case Lost(applied) => (if applied then written else db, Done(None)))
    case Expiring(request, token) => (db, if reply.Lost? then Done(None) else Go(Claiming(request, token)))
    case Claiming(request, token) =>
      var claimed := if request in db.idem then db else db.(idem := db.idem[request := token]);
      (match reply
       case Fine => (claimed, if request in db.idem then Go(Losing(request, token)) else Done(Some(token)))
       case Refused => (db, Go(Losing(request, token)))
       case Lost(applied) => (if applied then claimed else db, Done(None)))
    case Losing(request, token) =>
      if reply.Fine? && Lookup(db, request).Some? then (db, Go(Cleaning(request, token, Lookup(db, request).value)))
      else (db, Done(None))
    case Cleaning(request, token, winner) =>
      var cleaned := db.(sessions := db.sessions - {token});
      (if reply == Fine || reply == Lost(true) then cleaned else db, Done(Some(winner)))
  }

  /** A call whose commands no other call's come between; the store's replies are given. */
  function Alone(db: Db, call: Call, replies: seq<Reply>, newToken: string): (Db, Option<string>)
    decreases |replies|
  {
    if replies == [] then (db, None)
    else
      var (after, next) := Do(db, call, replies[0], newToken);
      match next
      case Done(result) => (after, result)
      case Go(more) => Alone(after, more, replies[1..], newToken)
  }

  // ------------------------------------------------------------------ the call as a program

  datatype GetReply = NoReply | NoString | Text(value: string)

  datatype SetReply = SetLost | NotSet | WasSet

  class SessionStore {
    var idem: map<string, string>
    var sessions: map<string, Record>

    function Contents(): Db
      reads this
    {
      Db(idem, sessions)
    }

    method Get(request: string, reply: Reply) returns (r: GetReply)
      ensures r == if reply.Lost? then NoReply
                   else if reply.Fine? && request in idem then Text(idem[request])
                   else NoString
    {
      if reply.Lost? {
        return NoReply;
      }
      return if reply.Fine? && request in idem then Text(idem[request]) else NoString;
    }

    method HSet(token: string, rec: Record, reply: Reply) returns (answered: bool)
      modifies this`sessions
      ensures answered <==> !reply.Lost?
      ensures sessions == if reply == Fine || reply == Lost(true) then old(sessions)[token := rec] else old(sessions)
    {
      if reply == Fine || reply == Lost(true) {
        sessions := sessions[token := rec];
      }
      return !reply.Lost?;
    }

    method SetNx(request: string, token: string, reply: Reply) returns (r: SetReply)
      modifies this`idem
      ensures idem == if (reply == Fine || reply == Lost(true)) && request !in old(idem)
                      then old(idem)[request := token]
                      else old(idem)
      ensures r == if reply.Lost? then SetLost else if reply.Fine? && request !in old(idem) then WasSet else NotSet
    {
      r := if reply.Lost? then SetLost else if reply.Fine? && request !in idem then WasSet else NotSet;
      if (reply == Fine || reply == Lost(true)) && request !in idem {
        idem := idem[request := token];
      }
    }

    method Del(token: string, reply: Reply)
      modifies this`sessions
      ensures sessions == if reply == Fine || reply == Lost(true) then old(sessions) - {token} else old(sessions)
    {
      if reply == Fine || reply == Lost(true) {
        sessions := sessions - {token};
      }
    }

    /** `token` is the generator's answer, should one be needed; at most six commands are sent. */
    method CreateSession(request: string, player: string, client: string, token: string, replies: seq<Reply>)
      returns (result: Option<string>)
      requires |replies| == 6
      modifies this
      ensures (Contents(), result) == Alone(old(Contents()), Reading(request, player, client), replies, token)
    {
      ghost var db := Contents();
      AloneStep(db, Reading(request, player, client), replies, token);
      var existing := Get(request, replies[0]);
      if existing.NoReply? {
        return None;
      }
      if existing.Text? && existing.value != "" {
        return Some(existing.value);
      }
      AloneStep(db, Writing(request, player, client, token), replies[1..], token);
      var written := HSet(token, Record(token, player, client), replies[1]);
      if !written {
        return None;
      }
      AloneStep(Contents(), Expiring(request, token), replies[2..], token);
      if replies[2].Lost? {
        return None;
      }
      result := Claim(request, token, replies[3..]);
    }

    method Claim(request: string, token: string, replies: seq<Reply>) returns (result: Option<string>)
      requires |replies| == 3
      modifies this
      ensures (Contents(), result) == Alone(old(Contents()), Claiming(request, token), replies, token)
    {
      AloneStep(Contents(), Claiming(request, token), replies, token);
      var claimed := SetNx(request, token, replies[0]);
      if claimed.SetLost? {
        return None;
      }
      if claimed.NotSet? {
        AloneStep(Contents(), Losing(request, token), replies[1..], token);
        var winner := Get(request, replies[1]);
        if !winner.Text? || winner.value == "" {
          return None;
        }
        AloneStep(Contents(), Cleaning(request, token, winner.value), replies[2..], token);
        Del(token, replies[2]);
        return Some(winner.value);
      }
      return Some(token);
    }
  }

  lemma AloneStep(db: Db, call: Call, replies: seq<Reply>, newToken: string)
    requires replies != []
    ensures Alone(db, call, replies, newToken) ==
      match Do(db, call, replies[0], newToken).1
      case Done(result) => (Do(db, call, replies[0], newToken).0, result)
      case Go(more) => Alone(Do(db, call, replies[0], newToken).0, more, replies[1..], newToken)
  {
  }

  // ------------------------------------------------------------------ many calls at once

  datatype Answer = Answer(request: string, token: string)

  /** What a call was made with. */
  datatype Login = Login(request: string, player: string, client: string)

  datatype Sys = Sys(
    db: Db, calls: map<nat, Call>,
    asked: map<nat, Login>,      // each thread's last call, as it came in
    owner: map<string, Login>,   // the call each token was generated for
    used: set<string>,        // every token ever generated
    loggedOut: set<string>,   // sessions deleted by a logout
    unwritten: set<string>,   // tokens whose HSET was answered with an error
    givenUp: set<string>,     // tokens given up: their call returned nothing, crashed, or could not delete
    answers: seq<Answer>)     // what calls have returned with kOk

  datatype Event =
    | CallEv(t: nat, request: string, player: string, client: string)
    | CommandEv(t: nat, reply: Reply, newToken: string)
    | CrashEv(t: nat)          // the gateway dies in the middle of a call
    | LogoutEv(token: string)

  predicate HasToken(c: Call) {
    !c.Reading?
  }

  /** A call that ends here without an answer, or without having deleted the session it made in vain. */
  predicate GivesUp(c: Call, reply: Reply, next: Next) {
    && HasToken(c) && next.Done?
    && (next.result.None? || (c.Cleaning? && !(reply == Fine || reply == Lost(true))))
  }

  predicate Enabled(s: Sys, ev: Event) {
    match ev
    case CallEv(t, _, _, _) => t !in s.calls
    case CommandEv(t, _, newToken) => t in s.calls && newToken !in s.used && newToken != ""
    case CrashEv(_) => true
    case LogoutEv(_) => true
  }

  function Step(s: Sys, ev: Event): Sys
    requires Enabled(s, ev)
  {
    match ev
    case CallEv(t, request, player, client) =>
      s.(calls := s.calls[t := Reading(request, player, client)], asked := s.asked[t := Login(request, player, client)])
    case CommandEv(t, reply, newToken) =>
      var call := s.calls[t];
      var (db, next) := Do(s.db, call, reply, newToken);
      Sys(db,
          if next.Go? then s.calls[t := next.call] else s.calls - {t},
          s.asked,
          if call.Reading? && next.Go? && t in s.asked then s.owner[newToken := s.asked[t]] else s.owner,
          if call.Reading? && next.Go? then s.used + {newToken} else s.used,
          s.loggedOut,
          if call.Writing? && reply.Refused? then s.unwritten + {call.token} else s.unwritten,
          if GivesUp(call, reply, next) then s.givenUp + {call.token} else s.givenUp,
          if next.Done? && next.result.Some? then s.answers + [Answer(call.request, next.result.value)] else s.answers)
    case CrashEv(t) =>
      s.(calls := s.calls - {t},
         givenUp := if t in s.calls && HasToken(s.calls[t]) then s.givenUp + {s.calls[t].token} else s.givenUp)
    case LogoutEv(token) =>
      if token !in s.db.sessions then s
      else s.(db := s.db.(sessions := s.db.sessions - {token}), loggedOut := s.loggedOut + {token})
  }

  /** A token whose HSET has been answered has its session, unless the answer was an error or the session
      was logged out. */
  predicate Backed(s: Sys, token: string) {
    token in s.db.sessions <==> token !in s.loggedOut && token !in s.unwritten
  }

  ghost predicate CallOk(s: Sys, c: Call) {
    && (HasToken(c) ==> c.token in s.used && c.token != "" && c.token !in s.db.idem.Values)
    && (c.Writing? ==> c.token !in s.unwritten && c.token !in s.db.sessions && c.token !in s.loggedOut)
    && (HasToken(c) && !c.Writing? ==> Backed(s, c.token))
    && (c.Cleaning? ==> c.request in s.db.idem && s.db.idem[c.request] == c.winner)
  }

  ghost predicate MappingsOk(s: Sys) {
    forall r :: r in s.db.idem ==> s.db.idem[r] in s.used && s.db.idem[r] != "" && Backed(s, s.db.idem[r])
  }

  predicate SameToken(c: Call, d: Call) {
    HasToken(c) && HasToken(d) && c.token == d.token
  }

  ghost predicate CallsOk(s: Sys) {
    && (forall t :: t in s.calls ==> CallOk(s, s.calls[t]))
    && (forall t, u :: t in s.calls && u in s.calls && SameToken(s.calls[t], s.calls[u]) ==> t == u)
  }

  ghost predicate AnswersOk(s: Sys) {
    forall a :: a in s.answers ==> a.request in s.db.idem && s.db.idem[a.request] == a.token
  }

  ghost predicate Inv(s: Sys) {
    && MappingsOk(s) && CallsOk(s) && AnswersOk(s)
    && s.unwritten <= s.used && s.loggedOut <= s.used && s.db.sessions.Keys <= s.used
  }

  predicate Start(s: Sys) {
    && s.db == Db(map[], map[]) && s.calls == map[] && s.unwritten == {} && s.loggedOut == {} && s.answers == []
    && s.asked == map[] && s.owner == map[] && s.givenUp == {}
  }

  // ------------------------------------------------------------------ every step keeps it

  /** A mapping, once visible, never changes. */
  predicate MappingsStay(s: Sys, q: Sys) {
    forall r :: r in s.db.idem ==> r in q.db.idem && q.db.idem[r] == s.db.idem[r]
  }

  lemma ReadingKeepsInv(s: Sys, t: nat, reply: Reply, newToken: string)
    requires Inv(s) && Enabled(s, CommandEv(t, reply, newToken)) && s.calls[t].Reading?
    ensures Inv(Step(s, CommandEv(t, reply, newToken)))
  {
    assert CallOk(s, s.calls[t]);
  }

  lemma WritingKeepsInv(s: Sys, t: nat, reply: Reply, newToken: string)
    requires Inv(s) && Enabled(s, CommandEv(t, reply, newToken)) && s.calls[t].Writing?
    ensures Inv(Step(s, CommandEv(t, reply, newToken)))
  {
    assert CallOk(s, s.calls[t]);
  }

  lemma ExpiringKeepsInv(s: Sys, t: nat, reply: Reply, newToken: string)
    requires Inv(s) && Enabled(s, CommandEv(t, reply, newToken)) && s.calls[t].Expiring?
    ensures Inv(Step(s, CommandEv(t, reply, newToken)))
  {
    assert CallOk(s, s.calls[t]);
  }

  /** The mapping is written and the call is over, whether or not it learns of it. */
  lemma ClaimLands(s: Sys, t: nat)
    requires Inv(s) && t in s.calls && s.calls[t].Claiming? && s.calls[t].request !in s.db.idem
    ensures var c := s.calls[t];
      Inv(s.(db := s.db.(idem := s.db.idem[c.request := c.token]), calls := s.calls - {t}))
  {
    var c := s.calls[t];
    var q := s.(db := s.db.(idem := s.db.idem[c.request := c.token]), calls := s.calls - {t});
    assert CallOk(s, c);
    forall u | u in q.calls ensures CallOk(q, q.calls[u]) {
      assert CallOk(s, s.calls[u]) && !(HasToken(q.calls[u]) && q.calls[u].token == c.token);
      assert q.db.idem.Values <= s.db.idem.Values + {c.token};
    }
  }

  lemma CallEnds(s: Sys, t: nat)
    requires Inv(s) && t in s.calls
    ensures Inv(s.(calls := s.calls - {t}))
  {
    var q := s.(calls := s.calls - {t});
    forall u | u in q.calls ensures CallOk(q, q.calls[u]) {
      assert CallOk(s, s.calls[u]);
    }
  }

  lemma ClaimLost(s: Sys, t: nat)
    requires Inv(s) && t in s.calls && s.calls[t].Claiming?
    ensures var c := s.calls[t]; Inv(s.(calls := s.calls[t := Losing(c.request, c.token)]))
  {
    var c := s.calls[t];
    var q := s.(calls := s.calls[t := Losing(c.request, c.token)]);
    assert CallOk(s, c);
    forall u | u in q.calls ensures CallOk(q, q.calls[u]) {
      assert CallOk(s, s.calls[u]);
    }
  }

  /** Who has given a token up makes no difference, nor does an answer that tells the mapping. */
  lemma AnswerIsOk(s: Sys, q: Sys, request: string)
    requires Inv(s) && q == s.(answers := q.answers, givenUp := q.givenUp)
    requires q.answers == s.answers
      || (request in s.db.idem && q.answers == s.answers + [Answer(request, s.db.idem[request])])
    ensures Inv(q)
  {
    forall u | u in q.calls ensures CallOk(q, q.calls[u]) {
      assert CallOk(s, s.calls[u]);
    }
  }

  lemma ClaimingKeepsInv(s: Sys, t: nat, reply: Reply, newToken: string)
    requires Inv(s) && Enabled(s, CommandEv(t, reply, newToken))
    requires s.calls[t].Claiming?
    ensures Inv(Step(s, CommandEv(t, reply, newToken)))
  {
    var c := s.calls[t];
    var q := Step(s, CommandEv(t, reply, newToken));
    if c.request !in s.db.idem && (reply == Fine || reply == Lost(true)) {
      ClaimLands(s, t);
      AnswerIsOk(s.(db := s.db.(idem := s.db.idem[c.request := c.token]), calls := s.calls - {t}), q, c.request);
    } else if reply.Lost? {
      CallEnds(s, t);
      AnswerIsOk(s.(calls := s.calls - {t}), q, c.request);
    } else {
      ClaimLost(s, t);
    }
  }

  lemma EndingKeepsInv(s: Sys, t: nat, reply: Reply, newToken: string)
    requires Inv(s) && Enabled(s, CommandEv(t, reply, newToken))
    requires s.calls[t].Losing? || s.calls[t].Cleaning?
    ensures Inv(Step(s, CommandEv(t, reply, newToken)))
  {
    assert CallOk(s, s.calls[t]);
  }

  lemma StepKeepsInv(s: Sys, ev: Event)
    requires Inv(s) && Enabled(s, ev)
    ensures Inv(Step(s, ev)) && MappingsStay(s, Step(s, ev))
  {
    if ev.CommandEv? {
      CommandKeepsInv(s, ev.t, ev.reply, ev.newToken);
      CommandKeepsMappings(s, ev.t, ev.reply, ev.newToken);
    }
  }

  lemma CommandKeepsInv(s: Sys, t: nat, reply: Reply, newToken: string)
    requires Inv(s) && Enabled(s, CommandEv(t, reply, newToken))
    ensures Inv(Step(s, CommandEv(t, reply, newToken)))
  {
    match s.calls[t]
    case Reading(_, _, _) => ReadingKeepsInv(s, t, reply, newToken);
    case Writing(_, _, _, _) => WritingKeepsInv(s, t, reply, newToken);
    case Expiring(_, _) => ExpiringKeepsInv(s, t, reply, newToken);
    case Claiming(_, _) => ClaimingKeepsInv(s, t, reply, newToken);
    case Losing(_, _) => EndingKeepsInv(s, t, reply, newToken);
    case Cleaning(_, _, _) => EndingKeepsInv(s, t, reply, newToken);
  }

  lemma CommandKeepsMappings(s: Sys, t: nat, reply: Reply, newToken: string)
    requires Enabled(s, CommandEv(t, reply, newToken))
    ensures MappingsStay(s, Step(s, CommandEv(t, reply, newToken)))
  {
  }

  // ------------------------------------------------------------------ runs

  predicate Legal(s: Sys, evs: seq<Event>)
    decreases |evs|
  {
    evs == [] || (Enabled(s, evs[0]) && Legal(Step(s, evs[0]), evs[1..]))
  }

  function Run(s: Sys, evs: seq<Event>): Sys
    requires Legal(s, evs)
    decreases |evs|
  {
    if evs == [] then s else Run(Step(s, evs[0]), evs[1..])
  }

  lemma {:induction false} RunKeepsInv(s: Sys, evs: seq<Event>)
    requires Inv(s) && Legal(s, evs)
    ensures Inv(Run(s, evs)) && MappingsStay(s, Run(s, evs))
    decreases |evs|
  {
    if evs != [] {
      StepKeepsInv(s, evs[0]);
      RunKeepsInv(Step(s, evs[0]), evs[1..]);
    }
  }

  /** However the commands of any number of logins are interleaved, and whichever of them fail, are
      answered with errors or lose their replies: two that succeed for one request id return one token. */
  lemma SameRequestSameToken(start: Sys, evs: seq<Event>, i: nat, j: nat)
    requires Start(start) && Legal(start, evs)
    requires var answers := Run(start, evs).answers;
      i < |answers| && j < |answers| && answers[i].request == answers[j].request
    ensures Run(start, evs).answers[i].token == Run(start, evs).answers[j].token
  {
    RunKeepsInv(start, evs);
    var s := Run(start, evs);
    assert s.answers[i] in s.answers && s.answers[j] in s.answers;
  }

  /** The token of a successful login has its session record exactly unless the player logged out or the
      store answered the HSET of that token with an error, which the login does not notice. */
  lemma AnswerHasSession(start: Sys, evs: seq<Event>, i: nat)
    requires Start(start) && Legal(start, evs) && i < |Run(start, evs).answers|
    ensures var s := Run(start, evs);
      var token := s.answers[i].token;
      token in s.db.sessions <==> token !in s.loggedOut && token !in s.unwritten
  {
    RunKeepsInv(start, evs);
    var s := Run(start, evs);
    assert s.answers[i] in s.answers;
  }

  // ------------------------------------------------------------------ whose session it is

  /** A call works on what it was made with, under a token generated for it. */
  predicate CallIsItsLogin(s: Sys, t: nat)
    requires t in s.calls
  {
    var c := s.calls[t];
    && t in s.asked && c.request == s.asked[t].request
    && (c.Reading? || c.Writing? ==> c.player == s.asked[t].player && c.client == s.asked[t].client)
    && (HasToken(c) ==> c.token in s.owner && s.owner[c.token] == s.asked[t])
  }

  ghost predicate OwnersOk(s: Sys) {
    && s.owner.Keys <= s.used
    && (forall t :: t in s.calls ==> CallIsItsLogin(s, t))
    && (forall r :: r in s.db.idem ==> s.db.idem[r] in s.owner && s.owner[s.db.idem[r]].request == r)
    && (forall token :: token in s.db.sessions ==> Belongs(s, token))
  }

  /** The record of a session is that of the login it was made for. */
  predicate Belongs(s: Sys, token: string)
    requires token in s.db.sessions
  {
    && token in s.owner
    && var rec := s.db.sessions[token];
       rec.token == token && rec.player == s.owner[token].player && rec.client == s.owner[token].client
  }

  lemma NewTokenIsOwned(s: Sys, t: nat, reply: Reply, newToken: string)
    requires Inv(s) && OwnersOk(s) && Enabled(s, CommandEv(t, reply, newToken)) && s.calls[t].Reading?
    ensures OwnersOk(Step(s, CommandEv(t, reply, newToken)))
  {
    var q := Step(s, CommandEv(t, reply, newToken));
    assert CallIsItsLogin(s, t);
    forall u | u in q.calls ensures CallIsItsLogin(q, u) {
      if u != t {
        assert CallIsItsLogin(s, u) && CallOk(s, s.calls[u]);
      }
    }
    forall token | token in q.db.sessions ensures Belongs(q, token) {
      assert Belongs(s, token);
    }
  }

  lemma WrittenIsOwned(s: Sys, t: nat, reply: Reply, newToken: string)
    requires Inv(s) && OwnersOk(s) && Enabled(s, CommandEv(t, reply, newToken)) && s.calls[t].Writing?
    ensures OwnersOk(Step(s, CommandEv(t, reply, newToken)))
  {
    var q := Step(s, CommandEv(t, reply, newToken));
    assert CallIsItsLogin(s, t);
    forall u | u in q.calls ensures CallIsItsLogin(q, u) {
      assert CallIsItsLogin(s, u);
    }
    forall token | token in q.db.sessions ensures Belongs(q, token) {
      assert token in s.db.sessions ==> Belongs(s, token);
    }
  }

  lemma ClaimedIsOwned(s: Sys, t: nat, reply: Reply, newToken: string)
    requires Inv(s) && OwnersOk(s) && Enabled(s, CommandEv(t, reply, newToken))
    requires !s.calls[t].Reading? && !s.calls[t].Writing?
    ensures OwnersOk(Step(s, CommandEv(t, reply, newToken)))
  {
    var q := Step(s, CommandEv(t, reply, newToken));
    assert CallIsItsLogin(s, t);
    forall u | u in q.calls ensures CallIsItsLogin(q, u) {
      assert CallIsItsLogin(s, u);
    }
    forall token | token in q.db.sessions ensures Belongs(q, token) {
      assert Belongs(s, token);
    }
  }

  lemma OthersKeepOwners(s: Sys, ev: Event)
    requires Inv(s) && OwnersOk(s) && Enabled(s, ev) && !ev.CommandEv?
    ensures OwnersOk(Step(s, ev))
  {
    var q := Step(s, ev);
    forall u | u in q.calls ensures CallIsItsLogin(q, u) {
      assert u in s.calls ==> CallIsItsLogin(s, u);
    }
    forall token | token in q.db.sessions ensures Belongs(q, token) {
      assert Belongs(s, token);
    }
  }

  lemma StepKeepsOwners(s: Sys, ev: Event)
    requires Inv(s) && OwnersOk(s) && Enabled(s, ev)
    ensures OwnersOk(Step(s, ev))
  {
    match ev
    case CommandEv(t, reply, newToken) =>
      if s.calls[t].Reading? {
        NewTokenIsOwned(s, t, reply, newToken);
      } else if s.calls[t].Writing? {
        WrittenIsOwned(s, t, reply, newToken);
      } else {
        ClaimedIsOwned(s, t, reply, newToken);
      }
    case _ => OthersKeepOwners(s, ev);
  }

  lemma {:induction false} RunKeepsOwners(s: Sys, evs: seq<Event>)
    requires Inv(s) && OwnersOk(s) && Legal(s, evs)
    ensures Inv(Run(s, evs)) && OwnersOk(Run(s, evs))
    decreases |evs|
  {
    if evs != [] {
      StepKeepsInv(s, evs[0]);
      StepKeepsOwners(s, evs[0]);
      RunKeepsOwners(Step(s, evs[0]), evs[1..]);
    }
  }

  /** Some call of the run was made with these. */
  ghost predicate WasCalled(evs: seq<Event>, login: Login) {
    exists i, t :: 0 <= i < |evs| && evs[i] == CallEv(t, login.request, login.player, login.client)
  }

  lemma CalledLater(ev: Event, evs: seq<Event>, login: Login)
    requires WasCalled(evs, login)
    ensures WasCalled([ev] + evs, login)
  {
    var i, t :| 0 <= i < |evs| && evs[i] == CallEv(t, login.request, login.player, login.client);
    assert ([ev] + evs)[i + 1] == CallEv(t, login.request, login.player, login.client);
  }

  lemma AskedByACall(s: Sys, ev: Event, t: nat)
    requires Enabled(s, ev) && t in Step(s, ev).asked
    ensures (t in s.asked && s.asked[t] == Step(s, ev).asked[t]) || WasCalled([ev], Step(s, ev).asked[t])
  {
    if ev.CallEv? && ev.t == t {
      assert [ev][0] == CallEv(t, ev.request, ev.player, ev.client);
    }
  }

  /** Whoever a token was generated for made a call. */
  lemma {:induction false} OwnersCalled(s: Sys, evs: seq<Event>, token: string)
    requires Legal(s, evs) && token in Run(s, evs).owner
    ensures var login := Run(s, evs).owner[token];
      || WasCalled(evs, login)
      || (token in s.owner && s.owner[token] == login)
      || exists t :: t in s.asked && s.asked[t] == login
    decreases |evs|
  {
    if evs != [] {
      var q := Step(s, evs[0]);
      var login := Run(s, evs).owner[token];
      OwnersCalled(q, evs[1..], token);
      assert evs == [evs[0]] + evs[1..];
      if WasCalled(evs[1..], login) {
        CalledLater(evs[0], evs[1..], login);
      } else if exists t :: t in q.asked && q.asked[t] == login {
        var t :| t in q.asked && q.asked[t] == login;
        AskedByACall(s, evs[0], t);
        if WasCalled([evs[0]], login) {
          var i, u :| 0 <= i < |[evs[0]]| && [evs[0]][i] == CallEv(u, login.request, login.player, login.client);
          assert evs[i] == CallEv(u, login.request, login.player, login.client);
        }
      }
    }
  }

  /** Whenever a token has a session, the record is the token with the player and client of one call of the
      run, the one the token was generated for. */
  lemma SessionIsItsCallers(start: Sys, evs: seq<Event>, token: string)
    requires Start(start) && Legal(start, evs) && token in Run(start, evs).db.sessions
    ensures var s := Run(start, evs);
      && token in s.owner && WasCalled(evs, s.owner[token])
      && s.db.sessions[token] == Record(token, s.owner[token].player, s.owner[token].client)
  {
    RunKeepsOwners(start, evs);
    assert Belongs(Run(start, evs), token);
    OwnersCalled(start, evs, token);
  }

  /** The session behind an answer or a mapping is the session of a call with that request id. */
  lemma AnswerIsForItsRequest(start: Sys, evs: seq<Event>, i: nat)
    requires Start(start) && Legal(start, evs) && i < |Run(start, evs).answers|
    ensures var s := Run(start, evs);
      var a := s.answers[i];
      && a.token in s.owner && s.owner[a.token].request == a.request && WasCalled(evs, s.owner[a.token])
      && (a.token in s.db.sessions ==>
            s.db.sessions[a.token] == Record(a.token, s.owner[a.token].player, s.owner[a.token].client))
  {
    RunKeepsOwners(start, evs);
    var s := Run(start, evs);
    assert s.answers[i] in s.answers;
    OwnersCalled(start, evs, s.answers[i].token);
    if s.answers[i].token in s.db.sessions {
      assert Belongs(s, s.answers[i].token);
    }
  }

  lemma MappingIsForItsRequest(start: Sys, evs: seq<Event>, request: string)
    requires Start(start) && Legal(start, evs) && request in Run(start, evs).db.idem
    ensures var s := Run(start, evs);
      var token := s.db.idem[request];
      && token in s.owner && s.owner[token].request == request && WasCalled(evs, s.owner[token])
      && (token in s.db.sessions ==>
            s.db.sessions[token] == Record(token, s.owner[token].player, s.owner[token].client))
  {
    RunKeepsOwners(start, evs);
    var s := Run(start, evs);
    OwnersCalled(start, evs, s.db.idem[request]);
    if s.db.idem[request] in s.db.sessions {
      assert Belongs(s, s.db.idem[request]);
    }
  }

  /** The same for every mapping from the moment it is visible. */
  lemma MappingHasSession(start: Sys, evs: seq<Event>, request: string)
    requires Start(start) && Legal(start, evs) && request in Run(start, evs).db.idem
    ensures Backed(Run(start, evs), Run(start, evs).db.idem[request])
  {
    RunKeepsInv(start, evs);
  }

  /** A login removes no session but its own, and that one is behind no mapping. */
  lemma LosersRemoveOnlyTheirOwn(s: Sys, t: nat, reply: Reply, newToken: string, token: string)
    requires Inv(s) && Enabled(s, CommandEv(t, reply, newToken))
    requires token in s.db.sessions && token !in Step(s, CommandEv(t, reply, newToken)).db.sessions
    ensures s.calls[t].Cleaning? && token == s.calls[t].token && token !in s.db.idem.Values
  {
    assert CallOk(s, s.calls[t]);
  }

  // ------------------------------------------------------------------ no session is left over

  /** A session is behind a mapping, or its call is still under way, or was given up. */
  ghost predicate Accounted(s: Sys, token: string) {
    || token in s.db.idem.Values
    || token in s.givenUp
    || exists t :: t in s.calls && HasToken(s.calls[t]) && s.calls[t].token == token
  }

  lemma StepKeepsAccounts(s: Sys, ev: Event)
    requires Inv(s) && Enabled(s, ev) && forall token :: token in s.db.sessions ==> Accounted(s, token)
    ensures var q := Step(s, ev); forall token :: token in q.db.sessions ==> Accounted(q, token)
  {
    var q := Step(s, ev);
    forall token | token in q.db.sessions ensures Accounted(q, token) {
      if token in s.db.sessions {
        assert Accounted(s, token);
        if token in s.db.idem.Values {
          assert MappingsStay(s, q) by {
            StepKeepsInv(s, ev);
          }
          var r :| r in s.db.idem && s.db.idem[r] == token;
          assert q.db.idem[r] == token;
        } else if token !in s.givenUp {
          var t :| t in s.calls && HasToken(s.calls[t]) && s.calls[t].token == token;
          OwnerStaysAccounted(s, ev, t);
        }
      } else {
        assert HasToken(s.calls[ev.t]) && s.calls[ev.t].token == token;
        OwnerStaysAccounted(s, ev, ev.t);
      }
    }
  }

  lemma OwnerStaysAccounted(s: Sys, ev: Event, t: nat)
    requires Inv(s) && Enabled(s, ev) && t in s.calls && HasToken(s.calls[t])
    requires s.calls[t].token in Step(s, ev).db.sessions
    ensures Accounted(Step(s, ev), s.calls[t].token)
  {
    var q := Step(s, ev);
    if ev.CommandEv? && ev.t == t && t !in q.calls && s.calls[t].Claiming? && ev.reply.Fine? {
      assert q.db.idem[s.calls[t].request] == s.calls[t].token;
    } else if t in q.calls {
      assert HasToken(q.calls[t]) && q.calls[t].token == s.calls[t].token;
    }
  }

  lemma {:induction false} RunKeepsAccounts(s: Sys, evs: seq<Event>)
    requires Inv(s) && Legal(s, evs) && forall token :: token in s.db.sessions ==> Accounted(s, token)
    ensures forall token :: token in Run(s, evs).db.sessions ==> Accounted(Run(s, evs), token)
    decreases |evs|
  {
    if evs != [] {
      StepKeepsInv(s, evs[0]);
      StepKeepsAccounts(s, evs[0]);
      RunKeepsAccounts(Step(s, evs[0]), evs[1..]);
    }
  }

  /** Over any run: a session behind no mapping whose call is not under way is one of a call that crashed,
      returned nothing, or whose DEL was not carried out. */
  lemma EverySessionIsAccountedFor(start: Sys, evs: seq<Event>, token: string)
    requires Start(start) && Legal(start, evs) && token in Run(start, evs).db.sessions
    ensures Accounted(Run(start, evs), token)
  {
    RunKeepsAccounts(start, evs);
  }

  /** What a login that nobody comes between returns and leaves, by what is mapped and what is replied. */
  lemma LoginAlone(db: Db, request: string, player: string, client: string, replies: seq<Reply>, token: string)
    requires |replies| == 6 && token !in db.sessions && (request in db.idem ==> db.idem[request] != "")
    ensures var (q, result) := Alone(db, Reading(request, player, client), replies, token);
      var known := request in db.idem;
      var found := known && replies[0].Fine?;
      && (result.Some? <==>
            || found
            || (!replies[0].Lost? && !replies[1].Lost? && !replies[2].Lost?
                && if known then !replies[3].Lost? && replies[4].Fine? else replies[3].Fine?))
      && (result.Some? ==> result.value == if known then db.idem[request] else token)
      && (found || (known && result.Some? && replies[5].Fine?) ==> q == db)
      && (!known && result.Some? ==>
            && q.idem == db.idem[request := token]
            && q.sessions ==
               if replies[1].Fine? then db.sessions[token := Record(token, player, client)] else db.sessions)
  {
    AloneStep(db, Reading(request, player, client), replies, token);
    if !(replies[0].Lost? || (request in db.idem && replies[0].Fine?)) {
      var (written, next) := Do(db, Writing(request, player, client, token), replies[1], token);
      AloneStep(db, Writing(request, player, client, token), replies[1..], token);
      AloneStep(written, Expiring(request, token), replies[2..], token);
      AloneStep(written, Claiming(request, token), replies[3..], token);
      AloneStep(written, Losing(request, token), replies[4..], token);
      if request in db.idem {
        AloneStep(written, Cleaning(request, token, db.idem[request]), replies[5..], token);
      }
      assert replies[1..][1..] == replies[2..] && replies[2..][1..] == replies[3..];
      assert replies[3..][1..] == replies[4..] && replies[4..][1..] == replies[5..];
    }
  }

  /** Why the exception is there: one refused HSET, and a login succeeds without a session. */
  lemma RefusedWriteGoesUnnoticed()
    ensures Alone(Db(map[], map[]), Reading("req", "alice", "web"), [Fine, Refused, Fine, Fine, Fine, Fine], "token")
      == (Db(map["req" := "token"], map[]), Some("token"))
  {
    var db := Db(map[], map[]);
    var replies := [Fine, Refused, Fine, Fine, Fine, Fine];
    AloneStep(db, Reading("req", "alice", "web"), replies, "token");
    AloneStep(db, Writing("req", "alice", "web", "token"), replies[1..], "token");
    AloneStep(db, Expiring("req", "token"), replies[2..], "token");
    AloneStep(db, Claiming("req", "token"), replies[3..], "token");
    assert replies[1..][0] == Refused && replies[1..][1..] == replies[2..];
    assert replies[2..][0] == Fine && replies[2..][1..] == replies[3..] && replies[3..][0] == Fine;
  }
}
