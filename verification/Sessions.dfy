/**
 The sessions of one browser under any sequence of committed flows (node_do_ensure_session.go).

 The store holds the live IDP sessions and the token each was made with; the context session of a
 request is the one the browser's cookie resolves to.  The commit effects write to redis one after
 another and are not undone when a later one fails, so a commit may stop in the middle.
 */
module Sessions {
  import opened Wrappers
  import opened LatteTypes
  import opened LatteReact

  datatype Browser = Browser(live: map<string, IDPSession>, tokens: map<string, string>, cookie: Option<string>)

  /** session.GetSession: the session the cookie's token was made for, if it is still live. */
  function Resolve(b: Browser): Option<IDPSession> {
    if b.cookie.Some? && b.cookie.value in b.tokens && b.tokens[b.cookie.value] in b.live
    then Some(b.live[b.tokens[b.cookie.value]]) else None
  }

  /** At most one session is live and the cookie names it. */
  ghost predicate OneSession(b: Browser) {
    forall id :: id in b.live ==> b.live[id].id == id && Resolve(b) == Some(b.live[id])
  }

  /** Where a commit may fail: before anything was written, between creating and revoking, or later. */
  datatype Fault = NoFault | BeforeCreate | AfterCreate | AfterEffects

  datatype Cookie = SessionCookie(token: string) | SameSiteStrictCookie

  function Created(b: Browser, n: EnsureSession): Browser {
    if n.sessionToCreate.None? then b
    else
      var s := n.sessionToCreate.value;
      b.(live := b.live[s.id := s], tokens := if n.sessionCookie.Some? then b.tokens[n.sessionCookie.value := s.id] else b.tokens)
  }

  /** `context` is the session the request came with. */
  function Revoked(b: Browser, n: EnsureSession, context: Option<IDPSession>): Browser {
    if n.sessionToCreate.Some? && context.Some? then b.(live := b.live - {context.value.id}) else b
  }

  predicate UpdateFails(b: Browser, n: EnsureSession) { n.updateSessionID != "" && n.updateSessionID !in b.live }

  function Updated(b: Browser, n: EnsureSession): Browser {
    if n.updateSessionID in b.live && n.updateSessionID != "" then
      b.(live := b.live[n.updateSessionID := b.live[n.updateSessionID].(amr := n.updateSessionAMR)])
    else b
  }

  function Commit(b: Browser, n: EnsureSession, fault: Fault): Browser {
    if fault.BeforeCreate? then b
    else if fault.AfterCreate? then Created(b, n)
    else
      var revoked := Revoked(Created(b, n), n, Resolve(b));
      var updated := Updated(revoked, n);
      if fault.AfterEffects? || UpdateFails(revoked, n) || n.sessionCookie.None? then updated
      else updated.(cookie := n.sessionCookie)
  }

  // ---------------------------------------------------------------- create, update or nothing

  function NodeOf(userID: string, reason: CreateReason, amr: seq<string>, mode: Mode, env: Env): EnsureSession {
    EnsureSessionReact(userID, reason, amr, mode, env).reaction.node.simple.session
  }

  predicate Creates(n: EnsureSession) { n.sessionToCreate.Some? && n.sessionCookie.Some? }

  predicate Updates(n: EnsureSession) { n.updateSessionID != "" }

  predicate LeavesAlone(n: EnsureSession) { n.sessionToCreate.None? && n.sessionCookie.None? && n.updateSessionID == "" }

  /** Exactly one of the three, and which one: update only in update-or-create mode when the request
      already carries a session of that very user, nothing only on request, create otherwise. */
  lemma OneOfThree(userID: string, reason: CreateReason, amr: seq<string>, mode: Mode, env: Env)
    requires env.contextSession.Some? ==> env.contextSession.value.id != ""
    ensures var n := NodeOf(userID, reason, amr, mode, env);
      var own := env.contextSession.Some? && env.contextSession.value.userID == userID;
      && (LeavesAlone(n) <==> mode == Noop)
      && (Updates(n) <==> mode == UpdateOrCreate && own)
      && (Creates(n) <==> mode != Noop && !(mode == UpdateOrCreate && own))
      && (Updates(n) ==> n.updateSessionID == env.contextSession.value.id && n.updateSessionAMR == amr && n.sessionToCreate.None?)
      && (Creates(n) ==> n.sessionToCreate == Some(IDPSession(env.newID, userID, amr)))
      && Exclusive(n)
  {
  }

  // ---------------------------------------------------------------- one commit

  /** The IDs and tokens of a session to create are new. */
  ghost predicate IsFresh(b: Browser, n: EnsureSession) {
    n.sessionToCreate.Some? ==>
      && n.sessionToCreate.value.id !in b.live && n.sessionToCreate.value.id !in b.tokens.Values
      && n.sessionCookie.Some? && n.sessionCookie.value !in b.tokens && n.sessionCookie != b.cookie
  }

  predicate Exclusive(n: EnsureSession) {
    (n.sessionToCreate.Some? <==> n.sessionCookie.Some?) && !(Creates(n) && Updates(n))
  }

  /** A commit keeps the single session unless it created one and failed before its cookie went out. */
  lemma CommitKeepsOneSession(b: Browser, n: EnsureSession, fault: Fault)
    requires OneSession(b) && IsFresh(b, n) && Exclusive(n)
    ensures OneSession(Commit(b, n, fault)) <==> !(Creates(n) && (fault.AfterCreate? || fault.AfterEffects?))
  {
    var c := Commit(b, n, fault);
    if Creates(n) && !fault.BeforeCreate? {
      var s := n.sessionToCreate.value;
      assert s.id in c.live;
      if fault.AfterCreate? || fault.AfterEffects? {
        assert c.cookie == b.cookie;
        assert Resolve(c) != Some(s);
      } else {
        forall id | id in c.live ensures id == s.id {
          assert id != s.id ==> id in b.live;
        }
      }
    } else if Updates(n) && !fault.BeforeCreate? {
      forall id | id in c.live ensures c.live[id].id == id && Resolve(c) == Some(c.live[id]) {
        assert id in b.live && b.live[id].id == id && Resolve(b) == Some(b.live[id]);
      }
    }
  }

  // ---------------------------------------------------------------- runs

  /** A committed flow: the node was made under some earlier context session and is committed now. */
  datatype Flow = Flow(userID: string, reason: CreateReason, amr: seq<string>, mode: Mode, env: Env, fault: Fault)
  {
    function Node(): EnsureSession { NodeOf(userID, reason, amr, mode, env) }
  }

  function CommitAll(b: Browser, flows: seq<Flow>): Browser {
    if flows == [] then b else Commit(CommitAll(b, flows[..|flows| - 1]), flows[|flows| - 1].Node(), flows[|flows| - 1].fault)
  }

  ghost predicate Sound(b: Browser, flows: seq<Flow>) {
    forall k :: 0 <= k < |flows| ==>
      && (flows[k].env.contextSession.Some? ==> flows[k].env.contextSession.value.id != "")
      && IsFresh(CommitAll(b, flows[..k]), flows[k].Node())
      && (Creates(flows[k].Node()) ==> flows[k].fault.NoFault? || flows[k].fault.BeforeCreate?)
  }

  lemma SoundFront(b: Browser, flows: seq<Flow>)
    requires Sound(b, flows) && flows != []
    ensures Sound(b, flows[..|flows| - 1])
    ensures var f := flows[|flows| - 1];
      && (f.env.contextSession.Some? ==> f.env.contextSession.value.id != "")
      && IsFresh(CommitAll(b, flows[..|flows| - 1]), f.Node())
      && (Creates(f.Node()) ==> f.fault.NoFault? || f.fault.BeforeCreate?)
  {
    hide IsFresh, CommitAll, Creates;
    var front := flows[..|flows| - 1];
    forall k | 0 <= k < |front| ensures front[k] == flows[k] && front[..k] == flows[..k] {}
  }

  lemma CommitAllOf(b: Browser, flows: seq<Flow>)
    requires flows != []
    ensures CommitAll(b, flows) == Commit(CommitAll(b, flows[..|flows| - 1]), flows[|flows| - 1].Node(), flows[|flows| - 1].fault)
  {
    hide Commit;
  }

  lemma {:induction false} AtMostOneSession(b: Browser, flows: seq<Flow>)
    requires OneSession(b) && Sound(b, flows)
    ensures OneSession(CommitAll(b, flows))
  {
    hide Commit, CommitAll, IsFresh, OneSession, Sound, Creates;
    if flows == [] {
      NoCommits(b);
    } else {
      var front, f := flows[..|flows| - 1], flows[|flows| - 1];
      SoundFront(b, flows);
      AtMostOneSession(b, front);
      OneOfThree(f.userID, f.reason, f.amr, f.mode, f.env);
      CommitKeepsOneSession(CommitAll(b, front), f.Node(), f.fault);
      CommitAllOf(b, flows);
    }
  }

  lemma NoCommits(b: Browser)
    ensures CommitAll(b, []) == b
  {
  }

  /** After a flow that creates, the browser is in the new session and the old one is gone; after one
      that updates, in the same session with the new methods; after one that does neither, as before. */
  lemma WhatACommitDoes(b: Browser, f: Flow)
    requires OneSession(b) && IsFresh(b, f.Node()) && f.fault.NoFault?
    requires f.env.contextSession.Some? ==> f.env.contextSession.value.id != ""
    ensures var n, c := f.Node(), Commit(b, f.Node(), f.fault);
      && (Creates(n) ==> c.live == map[f.env.newID := IDPSession(f.env.newID, f.userID, f.amr)])
      && (Creates(n) ==> Resolve(c) == Some(IDPSession(f.env.newID, f.userID, f.amr)))
      && (Updates(n) && n.updateSessionID in b.live ==> Resolve(c) == Some(b.live[n.updateSessionID].(amr := f.amr)))
      && (Updates(n) ==> c.live.Keys == b.live.Keys && c.cookie == b.cookie)
      && (LeavesAlone(n) ==> c == b)
  {
    OneOfThree(f.userID, f.reason, f.amr, f.mode, f.env);
    var n, c := f.Node(), Commit(b, f.Node(), f.fault);
    if Creates(n) {
      forall id | id in c.live ensures id == f.env.newID {
        assert id != f.env.newID ==> id in b.live;
      }
    } else if Updates(n) && n.updateSessionID in b.live {
      assert b.live[n.updateSessionID].id == n.updateSessionID;
    }
  }

  /** A commit touches the session it creates, the one the request came with and the one it updates, and no
      other, whatever state the store is in and wherever it fails. */
  lemma CommitTouchesOnly(b: Browser, n: EnsureSession, fault: Fault, id: string, token: string)
    ensures var c, context := Commit(b, n, fault), Resolve(b);
      && (!(n.sessionToCreate.Some? && (n.sessionToCreate.value.id == id || (context.Some? && context.value.id == id))) && n.updateSessionID != id ==>
            (id in c.live <==> id in b.live) && (id in c.live ==> c.live[id] == b.live[id]))
      && (n.sessionToCreate.None? || n.sessionCookie != Some(token) ==>
            (token in c.tokens <==> token in b.tokens) && (token in c.tokens ==> c.tokens[token] == b.tokens[token]))
      && (c.cookie == b.cookie || c.cookie == n.sessionCookie)
  {
  }

  /** How far a creating commit gets: nothing at first, then the new session with its token beside the old one,
      then the old one is revoked, and last of all the cookie goes out. */
  lemma CreatingGetsAsFar(b: Browser, n: EnsureSession, fault: Fault)
    requires Creates(n) && !Updates(n) && (Resolve(b).Some? ==> Resolve(b).value.id != n.sessionToCreate.value.id)
    ensures var c, s, context := Commit(b, n, fault), n.sessionToCreate.value, Resolve(b);
      && (fault.BeforeCreate? ==> c == b)
      && (!fault.BeforeCreate? ==> s.id in c.live && c.live[s.id] == s && n.sessionCookie.value in c.tokens && c.tokens[n.sessionCookie.value] == s.id)
      && (fault.AfterCreate? ==> c.live.Keys == b.live.Keys + {s.id})
      && (fault.AfterEffects? || fault.NoFault? ==> c.live.Keys == b.live.Keys + {s.id} - (if context.Some? then {context.value.id} else {}))
      && c.cookie == (if fault.NoFault? then n.sessionCookie else b.cookie)
  {
  }

  // ---------------------------------------------------------------- the effects as written

  class SessionStore {
    var live: map<string, IDPSession>
    var tokens: map<string, string>
    var cookie: Option<string>

    function Value(): Browser
      reads this
    {
      Browser(live, tokens, cookie)
    }

    /** The on-commit effects in order, then GetCookies; the response carries cookies only if all went well. */
    method CommitNode(n: EnsureSession, fault: Fault) returns (ok: bool)
      modifies this
      ensures Value() == Commit(old(Value()), n, fault)
      ensures ok <==> fault.NoFault? && !UpdateFails(Revoked(Created(old(Value()), n), n, Resolve(old(Value()))), n)
    {
      var context := Resolve(Value());
      if fault.BeforeCreate? { return false; }
      if n.sessionToCreate.Some? {
        var s := n.sessionToCreate.value;
        live := live[s.id := s];
        if n.sessionCookie.Some? { tokens := tokens[n.sessionCookie.value := s.id]; }
        if fault.AfterCreate? { return false; }
        if context.Some? { live := live - {context.value.id}; }
      }
      if fault.AfterCreate? { return false; }
      if n.updateSessionID != "" {
        if n.updateSessionID !in live { return false; }
        live := live[n.updateSessionID := live[n.updateSessionID].(amr := n.updateSessionAMR)];
      }
      if fault.AfterEffects? { return false; }
      var cookies := GetCookies(n);
      for k := 0 to |cookies|
        invariant live == Updated(Revoked(Created(old(Value()), n), n, context), n).live && tokens == Created(old(Value()), n).tokens
        invariant cookie == if n.sessionCookie.Some? && k > 0 then n.sessionCookie else old(cookie)
      {
        if cookies[k].SessionCookie? { cookie := Some(cookies[k].token); }
      }
      return true;
    }

    static method GetCookies(n: EnsureSession) returns (cookies: seq<Cookie>)
      ensures cookies == (if n.sessionCookie.Some? then [SessionCookie(n.sessionCookie.value)] else []) + [SameSiteStrictCookie]
    {
      cookies := [];
      if n.sessionCookie.Some? { cookies := cookies + [SessionCookie(n.sessionCookie.value)]; }
      cookies := cookies + [SameSiteStrictCookie];
    }
  }
}
