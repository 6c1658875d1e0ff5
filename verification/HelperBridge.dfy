/** The message loop that bridges the elevated helper's pipe to the writer
    (`bridge_helper_actions` of `elevated_record_helper.rs`). */
module HelperBridge {

  /** What a read of the pipe brings: a message, or a failure to read one. */
  datatype Message =
    | Unreadable
    | Ready(schemaOk: bool, session: int, pid: nat)
    | Action(session: int, body: int)
    | RunSummary(session: int, reason: int)
    | Failure(session: int)

  /** How the bridge ends: with the helper's own stop reason, with the reason for
      a pipe that just closed, or with an error. */
  datatype End = Stopped(reason: int) | PipeClosed | Broken

  /** The session and the process the bridge was opened for. */
  datatype Peer = Peer(session: int, pid: nat)

  predicate Announces(p: Peer, m: Message) { m.Ready? && m.schemaOk && m.session == p.session && m.pid == p.pid }

  /** What ends the bridge: a failed read, a wrong announcement, or this session's
      summary or error. */
  predicate Final(p: Peer, m: Message) {
    m.Unreadable? || (m.Ready? && !Announces(p, m)) || ((m.RunSummary? || m.Failure?) && m.session == p.session)
  }

  /** Where the bridge stops reading. */
  function Stop(p: Peer, messages: seq<Message>): (k: nat)
    ensures k <= |messages|
    ensures forall j :: 0 <= j < k ==> !Final(p, messages[j])
    ensures k < |messages| ==> Final(p, messages[k])
  {
    if messages == [] || Final(p, messages[0]) then 0 else 1 + Stop(p, messages[1..])
  }

  /** An action that counts: this session's, after the helper has announced itself. */
  predicate Counts(p: Peer, messages: seq<Message>, k: nat)
    requires k < |messages|
  {
    messages[k].Action? && messages[k].session == p.session && exists j :: 0 <= j < k && Announces(p, messages[j])
  }

  /** The actions among the first `n` messages that count, in order. */
  function Counted(p: Peer, messages: seq<Message>, n: nat): seq<int>
    requires n <= |messages|
  {
    if n == 0 then [] else
      Counted(p, messages, n - 1) + if Counts(p, messages, n - 1) then [messages[n - 1].body] else []
  }

  lemma {:induction false} StopIs(p: Peer, messages: seq<Message>, k: nat)
    requires k <= |messages| && forall j :: 0 <= j < k ==> !Final(p, messages[j])
    ensures k <= Stop(p, messages) && (k < |messages| && Final(p, messages[k]) ==> Stop(p, messages) == k)
  {
    if k > 0 { StopIs(p, messages[1..], k - 1); }
  }

  /** What reaches the writer is exactly the actions that count before the bridge
      stops reading, as far as the writer takes them; a writer that is gone breaks
      the bridge, and otherwise what stopped the reading decides how it ends. */
  method BridgeHelperActions(p: Peer, messages: seq<Message>, room: nat) returns (forwarded: seq<int>, end: End)
    ensures var all := Counted(p, messages, Stop(p, messages));
      && forwarded == all[..if |all| <= room then |all| else room]
      && end == if |all| > room then Broken
                else if Stop(p, messages) == |messages| then PipeClosed
                else match messages[Stop(p, messages)] case RunSummary(_, reason) => Stopped(reason) case _ => Broken
  {
    forwarded := [];
    var ready := false;
    for k := 0 to |messages|
      invariant ready <==> exists j :: 0 <= j < k && Announces(p, messages[j])
      invariant forall j :: 0 <= j < k ==> !Final(p, messages[j])
      invariant forwarded == Counted(p, messages, k) && |forwarded| <= room
    {
      var m := messages[k];
      StopIs(p, messages, k);
      match m {
        case Unreadable => return forwarded, Broken;
        case Ready(schemaOk, session, pid) =>
          if schemaOk && session == p.session && pid == p.pid {
            ready := true;
            assert Announces(p, messages[k]);
          } else {
            return forwarded, Broken;
          }
        case Action(session, body) =>
          if ready && session == p.session {
            if |forwarded| == room {
              CountedGrows(p, messages, k + 1, Stop(p, messages));
              return forwarded, Broken;
            }
            forwarded := forwarded + [body];
          }
        case RunSummary(session, reason) =>
          if session == p.session { return forwarded, Stopped(reason); }
        case Failure(session) =>
          if session == p.session { return forwarded, Broken; }
      }
    }
    StopIs(p, messages, |messages|);
    end := PipeClosed;
  }

  lemma {:induction false} CountedGrows(p: Peer, messages: seq<Message>, k: nat, n: nat)
    requires k <= n <= |messages|
    ensures Counted(p, messages, k) <= Counted(p, messages, n)
  {
    if k < n { CountedGrows(p, messages, k, n - 1); }
  }

  /** An action gets through exactly when it is of this session and comes after the
      announcement. */
  lemma {:induction false} OnlyCountedActions(p: Peer, messages: seq<Message>, n: nat, body: int)
    requires n <= |messages|
    ensures body in Counted(p, messages, n) <==>
      exists k, j :: 0 <= j < k < n && messages[k] == Action(p.session, body) && messages[j] == Ready(true, p.session, p.pid)
  {
    if n > 0 {
      OnlyCountedActions(p, messages, n - 1, body);
      CountsIff(p, messages, n - 1, body);
    }
  }

  lemma CountsIff(p: Peer, messages: seq<Message>, k: nat, body: int)
    requires k < |messages|
    ensures Counts(p, messages, k) && messages[k].body == body
      <==> exists j :: 0 <= j < k && messages[k] == Action(p.session, body) && messages[j] == Ready(true, p.session, p.pid)
  {
    forall j | 0 <= j < k ensures Announces(p, messages[j]) <==> messages[j] == Ready(true, p.session, p.pid) {}
  }

  /** The bridge reads on past the announcement it waits for, actions, and word of
      another session, and stops at anything else. */
  lemma {:induction false} StopsAtFirst(p: Peer, messages: seq<Message>)
    ensures var k := Stop(p, messages);
      && (k < |messages| ==>
            || messages[k] == Unreadable
            || (messages[k].Ready? && messages[k] != Ready(true, p.session, p.pid))
            || messages[k] == Failure(p.session)
            || (exists reason :: messages[k] == RunSummary(p.session, reason)))
      && forall j :: 0 <= j < k ==>
           || messages[j] == Ready(true, p.session, p.pid)
           || messages[j].Action?
           || ((messages[j].Failure? || messages[j].RunSummary?) && messages[j].session != p.session)
  {
    if messages != [] && !Final(p, messages[0]) {
      StopsAtFirst(p, messages[1..]);
    } else if messages != [] && messages[0].RunSummary? {
      assert messages[0] == RunSummary(p.session, messages[0].reason);
    }
  }
}
