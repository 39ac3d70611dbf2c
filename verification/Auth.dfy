// Single-flight token refresh (src/proxy/auth.rs). Callers of one account queue
// on its lock; reading, sending and writing are separate steps.

module Auth {
  import opened Arithmetic
  import opened Wrappers
  import opened Types

  // The stored credentials: the refresh token is looked for in `tokens` and,
  // when absent there, at the top level.
  datatype Snapshot = Snapshot(access: string, nested: Option<string>, top: Option<string>, revision: nat)

  datatype Outcome = Refreshed | StillValid | ReauthRequired | Failed

  // What the token endpoint does with one request.
  datatype Reply = Unreachable | Status(code: nat) | Garbled | Tokens(access: string, refresh: Option<string>)

  function RefreshToken(s: Snapshot): Option<string> {
    var found := if s.nested.Some? then s.nested else s.top;
    if found.Some? && found.value != "" then found else None
  }

  // What is written back: always the nested form.
  function Canonical(s: Snapshot, access: string, refresh: Option<string>): Snapshot {
    var previous := if s.nested.Some? then s.nested.value else "";
    Snapshot(access, Some(if refresh.Some? then refresh.value else previous), None, Bump(s.revision))
  }

  // What reading the snapshot decides: an outcome, or the token to send.
  datatype Decision = Now(outcome: Outcome) | SendToken(token: string)

  function Decide(s: Snapshot, force: bool, rejected: Option<string>, expiring: bool): Decision {
    if rejected.Some? && rejected.value != s.access then Now(StillValid)
    else if !force && !expiring then Now(StillValid)
    else if RefreshToken(s).None? then Now(Failed)
    else SendToken(RefreshToken(s).value)
  }

  // The new tokens, or the outcome of a refused request.
  datatype Verdict = Refusal(outcome: Outcome) | Grant(access: string, refresh: Option<string>)

  function Judge(r: Reply): Verdict {
    match r
    case Unreachable => Refusal(Failed)
    case Status(code) => Refusal(if code == 400 || code == 401 then ReauthRequired else Failed)
    case Garbled => Refusal(Failed)
    case Tokens(access, refresh) => if access == "" then Refusal(Failed) else Grant(access, refresh)
  }

  // ---------------------------------------------------------------- one attempt

  // The refresh token a snapshot offers: the nested one if there is one, else the
  // one at the top level, unless that is empty.
  predicate Offers(s: Snapshot, token: string) {
    token != "" && (s.nested == Some(token) || (s.nested.None? && s.top == Some(token)))
  }

  // Nothing is sent for a caller whose rejected token is no longer the stored
  // one, nor before the stored token is about to expire, unless it is forced.
  predicate NothingToDo(s: Snapshot, force: bool, rejected: Option<string>, expiring: bool) {
    (rejected.Some? && rejected.value != s.access) || !(force || expiring)
  }

  // What one caller's attempt on the snapshot s gives: its outcome, the token it
  // sends, and the snapshot t after it.
  ghost predicate Attempt(
      s: Snapshot, force: bool, rejected: Option<string>, expiring: bool, reply: Reply, written: bool,
      outcome: Outcome, sent: Option<string>, t: Snapshot)
  {
    && (outcome == StillValid <==> NothingToDo(s, force, rejected, expiring))
    && (sent.Some? ==> Offers(s, sent.value) && outcome != StillValid)
    && (outcome != StillValid && sent.None? ==> outcome == Failed && forall token :: !Offers(s, token))
    && (outcome == ReauthRequired <==> sent.Some? && reply.Status? && reply.code in {400, 401})
    && (outcome == Refreshed <==> sent.Some? && reply.Tokens? && reply.access != "" && written)
    && (outcome != Refreshed ==> t == s)
    && (outcome == Refreshed ==> Rewrites(t, s, reply.access, reply.refresh))
  }

  // The new tokens; an old refresh token stays if no new one was issued.
  predicate Rewrites(t: Snapshot, s: Snapshot, access: string, refresh: Option<string>) {
    && t.access == access && t.top.None? && t.nested.Some?
    && (refresh.Some? ==> t.nested == refresh)
    && (refresh.None? && s.nested.Some? ==> t.nested == s.nested)
    && (refresh.None? && s.nested.None? ==> t.nested.value == "")
    && t.revision == if s.revision < 0xFFFF_FFFF_FFFF_FFFF then s.revision + 1 else 0xFFFF_FFFF_FFFF_FFFF
  }

  lemma TokenOffered(s: Snapshot)
    ensures RefreshToken(s).Some? ==> Offers(s, RefreshToken(s).value)
    ensures RefreshToken(s).None? ==> forall token :: !Offers(s, token)
  {
  }

  // ---------------------------------------------------------------- one caller

  class TokenRefresher {
    var snapshots: map<Id, Snapshot>

    // `expiring` is what the clock says of the stored token, `written` whether
    // the file could be replaced.
    method RefreshInner(id: Id, force: bool, rejected: Option<string>, expiring: bool, reply: Reply, written: bool)
      returns (outcome: Outcome, sent: Option<string>)
      modifies this
      ensures id !in old(snapshots) ==> outcome == Failed && sent.None? && snapshots == old(snapshots)
      ensures id in old(snapshots) ==>
        && id in snapshots && snapshots == old(snapshots)[id := snapshots[id]]
        && Attempt(old(snapshots)[id], force, rejected, expiring, reply, written, outcome, sent, snapshots[id])
    {
      sent := None;
      if id !in snapshots {
        return Failed, None;
      }
      var stored := snapshots[id];
      if rejected.Some? && rejected.value != stored.access {
        return StillValid, None;
      }
      if !force && !expiring {
        return StillValid, None;
      }
      sent := RefreshToken(stored);
      TokenOffered(stored);
      if sent.None? {
        return Failed, None;
      }
      match Judge(reply) {
        case Refusal(o) => outcome := o;
        case Grant(access, refresh) =>
          if !written {
            return Failed, sent;
          }
          snapshots := snapshots[id := Canonical(stored, access, refresh)];
          outcome := Refreshed;
      }
    }
  }

  // A refresh leaves a usable refresh token exactly when the endpoint issued one
  // or the old one was in the nested form: a token kept only at the top level is
  // lost unless it is rotated.
  lemma RefreshKeepsToken(s: Snapshot, access: string, refresh: Option<string>)
    ensures RefreshToken(Canonical(s, access, refresh)).Some? <==>
      (if refresh.Some? then refresh.value != "" else s.nested.Some? && s.nested.value != "")
    ensures refresh.None? && s.nested.Some? ==> RefreshToken(Canonical(s, access, refresh)) == RefreshToken(s)
  {
  }

  // ---------------------------------------------------------------- many callers

  datatype Pc =
    | Waiting
    | Reading
    | Sending(seen: Snapshot, token: string)
    | Writing(next: Snapshot)
    | Returned(outcome: Outcome)

  datatype Caller = Caller(force: bool, rejected: Option<string>, pc: Pc)

  datatype State = State(stored: Snapshot, holder: Option<nat>, callers: map<nat, Caller>)

  datatype Step =
    | Arrive(c: nat, force: bool, rejected: Option<string>)
    | Lock(c: nat)
    | Read(c: nat, readable: bool, expiring: bool)
    | Send(c: nat, reply: Reply)
    | Write(c: nat, written: bool)
    | Cancel(c: nat)                       // the caller's connection is gone

  predicate Enabled(s: State, p: Step) {
    match p
    case Arrive(c, _, _) => c !in s.callers
    case Lock(c) => c in s.callers && s.callers[c].pc.Waiting? && s.holder.None?
    case Read(c, _, _) => c in s.callers && s.callers[c].pc.Reading?
    case Send(c, _) => c in s.callers && s.callers[c].pc.Sending?
    case Write(c, _) => c in s.callers && s.callers[c].pc.Writing?
    case Cancel(c) => c in s.callers && (s.callers[c].pc.Waiting? || s.callers[c].pc.Sending?)
  }

  function Goes(s: State, c: nat, pc: Pc): State
    requires c in s.callers
  {
    s.(callers := s.callers[c := s.callers[c].(pc := pc)])
  }

  // Returning drops the guard.
  function Returns(s: State, c: nat, outcome: Outcome): State
    requires c in s.callers
  {
    Goes(s, c, Returned(outcome)).(holder := if s.holder == Some(c) then None else s.holder)
  }

  function Next(s: State, p: Step): State
    requires Enabled(s, p)
  {
    match p
    case Arrive(c, force, rejected) => s.(callers := s.callers[c := Caller(force, rejected, Waiting)])
    case Lock(c) => Goes(s, c, Reading).(holder := Some(c))
    case Read(c, readable, expiring) =>
      if !readable then Returns(s, c, Failed)
      else
        (match Decide(s.stored, s.callers[c].force, s.callers[c].rejected, expiring)
         case Now(outcome) => Returns(s, c, outcome)
         case SendToken(token) => Goes(s, c, Sending(s.stored, token)))
    case Send(c, reply) =>
      (match Judge(reply)
       case Refusal(outcome) => Returns(s, c, outcome)
       case Grant(access, refresh) => Goes(s, c, Writing(Canonical(s.callers[c].pc.seen, access, refresh))))
    case Write(c, written) =>
      if written then Returns(s, c, Refreshed).(stored := s.callers[c].pc.next)
      else Returns(s, c, Failed)
    case Cancel(c) => Returns(s, c, Failed)
  }

  // The steps of an attempt, as far as the snapshot and the reply let it come.
  lemma AttemptOf(s: Snapshot, force: bool, rejected: Option<string>, expiring: bool, reply: Reply, written: bool)
    ensures match Decide(s, force, rejected, expiring)
      case Now(outcome) => Attempt(s, force, rejected, expiring, reply, written, outcome, None, s)
      case SendToken(token) =>
        match Judge(reply)
        case Refusal(outcome) => Attempt(s, force, rejected, expiring, reply, written, outcome, Some(token), s)
        case Grant(access, refresh) =>
          if written then
            Attempt(s, force, rejected, expiring, reply, written, Refreshed, Some(token),
                    Canonical(s, access, refresh))
          else Attempt(s, force, rejected, expiring, reply, written, Failed, Some(token), s)
  {
    TokenOffered(s);
  }

  // A caller that finds the lock free and is neither overtaken nor cancelled makes
  // such an attempt and leaves the lock free.
  lemma AloneAttempts(s: State, c: nat, readable: bool, expiring: bool, reply: Reply, written: bool)
    returns (ps: seq<Step>, t: State, sent: Option<string>)
    requires c in s.callers && s.callers[c].pc.Waiting? && s.holder.None?
    ensures Reaches(s, ps, t) && t.holder.None?
    ensures c in t.callers && t.callers == s.callers[c := t.callers[c]] && t.callers[c].pc.Returned?
    ensures !readable ==> t.stored == s.stored && t.callers[c].pc.outcome == Failed
    ensures readable ==>
      Attempt(s.stored, s.callers[c].force, s.callers[c].rejected, expiring, reply, written,
              t.callers[c].pc.outcome, sent, t.stored)
  {
    AttemptOf(s.stored, s.callers[c].force, s.callers[c].rejected, expiring, reply, written);
    sent := None;
    var s1 := Next(s, Lock(c));
    t := Next(s1, Read(c, readable, expiring));
    ps := [Lock(c), Read(c, readable, expiring)];
    ReachesTwo(s, Lock(c), Read(c, readable, expiring));
    if t.callers[c].pc.Sending? {
      sent := Some(t.callers[c].pc.token);
      ReachesOn(s, ps, t, Send(c, reply));
      ps, t := ps + [Send(c, reply)], Next(t, Send(c, reply));
      if t.callers[c].pc.Writing? {
        ReachesOn(s, ps, t, Write(c, written));
        ps, t := ps + [Write(c, written)], Next(t, Write(c, written));
      }
    }
  }

  lemma ReachesTwo(s: State, p: Step, q: Step)
    requires Enabled(s, p) && Enabled(Next(s, p), q)
    ensures Reaches(s, [p, q], Next(Next(s, p), q))
  {
    ReachesOn(s, [], s, p);
    assert [] + [p] == [p];
    ReachesOn(s, [p], Next(s, p), q);
    assert [p] + [q] == [p, q];
  }

  lemma {:induction false} ReachesOn(s: State, ps: seq<Step>, t: State, p: Step)
    requires Reaches(s, ps, t) && Enabled(t, p)
    ensures Reaches(s, ps + [p], Next(t, p))
    decreases |ps|
  {
    var more := ps + [p];
    if ps == [] {
      assert more[0] == p && more[1..] == [];
    } else {
      assert more[0] == ps[0] && more[1..] == ps[1..] + [p];
      ReachesOn(Next(s, ps[0]), ps[1..], t, p);
    }
  }

  // A caller that waits for the lock or for the endpoint can be given up: the
  // lock is free then, and nothing was written.
  lemma CancelFrees(s: State, c: nat)
    requires c in s.callers && (s.callers[c].pc.Waiting? || s.callers[c].pc.Sending?)
    ensures Enabled(s, Cancel(c))
    ensures var t := Next(s, Cancel(c));
      && t.callers == s.callers[c := s.callers[c].(pc := Returned(Failed))] && t.stored == s.stored
      && t.holder == if s.holder == Some(c) then None else s.holder
  {
  }

  // The endpoint does not issue this access token.
  predicate NeverIssues(p: Step, token: string) {
    p.Send? && p.reply.Tokens? ==> p.reply.access != token
  }

  function Winners(callers: map<nat, Caller>): set<nat> {
    set c | c in callers && callers[c].pc == Returned(Refreshed)
  }

  function WinnersFor(callers: map<nat, Caller>, token: string): set<nat> {
    set c | c in callers && callers[c].pc == Returned(Refreshed) && callers[c].rejected == Some(token)
  }

  // The caller holding the lock, if it got past its read, works from the stored
  // snapshot and, when it came with a rejected token, that token is the stored one.
  ghost predicate Exclusive(s: State) {
    && (forall c :: c in s.callers && (s.callers[c].pc.Reading? || s.callers[c].pc.Sending? || s.callers[c].pc.Writing?)
          ==> s.holder == Some(c))
    && (forall c :: c in s.callers && s.callers[c].pc.Sending? ==>
          && s.callers[c].pc.seen == s.stored
          && RefreshToken(s.stored) == Some(s.callers[c].pc.token)
          && (s.callers[c].rejected.Some? ==> s.callers[c].rejected.value == s.stored.access))
    && (forall c :: c in s.callers && s.callers[c].pc.Writing? ==>
          && s.callers[c].pc.next.revision == Bump(s.stored.revision)
          && (s.callers[c].rejected.Some? ==> s.callers[c].rejected.value == s.stored.access))
  }

  function Saturating(base: nat, n: nat): nat {
    if base + n >= U64_MAX then U64_MAX else base + n
  }

  // `base` is the revision before any of these callers came.
  ghost predicate Inv(s: State, base: nat, token: string) {
    && Exclusive(s)
    && s.stored.revision == Saturating(base, |Winners(s.callers)|)
    && |WinnersFor(s.callers, token)| <= 1
    && (WinnersFor(s.callers, token) != {} ==> s.stored.access != token)
    && (forall c :: c in s.callers && s.callers[c].pc.Writing? ==> s.callers[c].pc.next.access != token)
  }

  lemma StepIsExclusive(s: State, p: Step)
    requires Exclusive(s) && Enabled(s, p)
    ensures Exclusive(Next(s, p))
  {
  }

  lemma WinnersStay(s: State, p: Step, token: string)
    requires Enabled(s, p) && !(p.Write? && p.written)
    ensures Winners(Next(s, p).callers) == Winners(s.callers)
    ensures WinnersFor(Next(s, p).callers, token) == WinnersFor(s.callers, token)
    ensures Next(s, p).stored == s.stored
  {
  }

  lemma WinnerAdded(s: State, c: nat, token: string)
    requires Enabled(s, Write(c, true))
    ensures var t := Next(s, Write(c, true));
      && Winners(t.callers) == Winners(s.callers) + {c} && c !in Winners(s.callers)
      && WinnersFor(t.callers, token) ==
           WinnersFor(s.callers, token) + (if s.callers[c].rejected == Some(token) then {c} else {})
      && c !in WinnersFor(s.callers, token)
  {
  }

  lemma WriteKeepsInv(s: State, c: nat, base: nat, token: string)
    requires Inv(s, base, token) && Enabled(s, Write(c, true))
    ensures Inv(Next(s, Write(c, true)), base, token)
  {
    StepIsExclusive(s, Write(c, true));
    WinnerAdded(s, c, token);
    if s.callers[c].rejected == Some(token) {
      assert s.stored.access == token;
      assert WinnersFor(s.callers, token) == {};
    }
  }

  // A caller about to write holds a fresh access token.
  lemma NextTokenDiffers(s: State, p: Step, base: nat, token: string)
    requires Inv(s, base, token) && Enabled(s, p) && NeverIssues(p, token)
    ensures var t := Next(s, p);
      forall c :: c in t.callers && t.callers[c].pc.Writing? ==> t.callers[c].pc.next.access != token
  {
  }

  lemma StepKeepsInv(s: State, p: Step, base: nat, token: string)
    requires Inv(s, base, token) && Enabled(s, p) && NeverIssues(p, token)
    ensures Inv(Next(s, p), base, token)
  {
    if p.Write? && p.written {
      WriteKeepsInv(s, p.c, base, token);
    } else {
      StepIsExclusive(s, p);
      NextTokenDiffers(s, p, base, token);
      WinnersStay(s, p, token);
    }
  }

  ghost predicate Reaches(s: State, ps: seq<Step>, t: State)
    decreases |ps|
  {
    if ps == [] then s == t
    else Enabled(s, ps[0]) && Reaches(Next(s, ps[0]), ps[1..], t)
  }

  // Any number of callers, in any interleaving: at most one of those rejected
  // with the same access token gets Refreshed, if the endpoint never issues that
  // token again; every refresh token about to be sent is the stored one; and the
  // stored revision has risen by one per Refreshed outcome, up to saturation.
  lemma {:induction false} SingleFlight(s: State, ps: seq<Step>, t: State, base: nat, token: string)
    requires Inv(s, base, token) && Reaches(s, ps, t)
    requires forall i :: 0 <= i < |ps| ==> NeverIssues(ps[i], token)
    ensures Inv(t, base, token)
    ensures |WinnersFor(t.callers, token)| <= 1
    ensures forall c :: c in t.callers && t.callers[c].pc.Sending? ==>
      Some(t.callers[c].pc.token) == RefreshToken(t.stored)
    ensures t.stored.revision == Saturating(base, |Winners(t.callers)|)
    decreases |ps|
  {
    if ps != [] {
      StepKeepsInv(s, ps[0], base, token);
      forall i | 0 <= i < |ps[1..]| ensures NeverIssues(ps[1..][i], token) {
        assert ps[1..][i] == ps[i + 1];
      }
      SingleFlight(Next(s, ps[0]), ps[1..], t, base, token);
    }
  }

  lemma InitialInv(stored: Snapshot, token: string)
    requires stored.revision <= U64_MAX
    ensures Inv(State(stored, None, map[]), stored.revision, token)
  {
    assert Winners(map[]) == {} && WinnersFor(map[], token) == {};
  }

  // At most one caller is past the lock.
  lemma LockExcludes(s: State, c: nat, d: nat)
    requires Exclusive(s) && c in s.callers && d in s.callers
    requires !s.callers[c].pc.Waiting? && !s.callers[c].pc.Returned?
    requires !s.callers[d].pc.Waiting? && !s.callers[d].pc.Returned?
    ensures c == d
  {
  }
}
