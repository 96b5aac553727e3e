/** The chat gateway: per-user message logs in memory, and what they are in terms of the history. */
module Chat {

  datatype Message = Message(from: string, message: string, read: bool)

  type Sessions = map<string, seq<Message>>

  /** What a socket sends; user id and role come from its handshake. */
  datatype Event =
    | Connect(user: string, isAdmin: bool)
    | Say(user: string, isAdmin: bool, text: string)
    | Mark(user: string, sender: string)

  // ---- The handlers, on values --------------------------------------------------------------

  function MarkRead(log: seq<Message>, sender: string): (r: seq<Message>)
    ensures |r| == |log|
  {
    seq(|log|, i requires 0 <= i < |log| => if log[i].from == sender then log[i].(read := true) else log[i])
  }

  function WithBroadcast(s: Sessions, user: string, text: string): seq<Message> {
    if user in s then s[user] + [Message("Admin", text, false)] else []
  }

  function ToEveryone(s: Sessions, text: string): Sessions {
    map u | u in s :: WithBroadcast(s, u, text)
  }

  /** A message of a user without a session makes the handler throw, with no effect. */
  function Apply(s: Sessions, e: Event): Sessions {
    match e
    case Connect(user, isAdmin) => if isAdmin || user in s then s else s[user := []]
    case Say(user, isAdmin, text) =>
      if isAdmin then ToEveryone(s, text)
      else if user in s then s[user := s[user] + [Message(user, text, false)]]
      else s
    case Mark(user, sender) => if user in s then s[user := MarkRead(s[user], sender)] else s
  }

  function Run(h: seq<Event>): Sessions {
    if h == [] then map[] else Apply(Run(h[..|h| - 1]), h[|h| - 1])
  }

  // ---- The logs, read off the history -------------------------------------------------------

  predicate ConnectedBefore(h: seq<Event>, user: string, n: nat) {
    exists j :: 0 <= j < n && j < |h| && h[j] == Connect(user, false)
  }

  /** The i-th event is a broadcast, or a message of the user's own, after the user first connected. */
  predicate Delivered(h: seq<Event>, user: string, i: nat)
    requires i < |h|
  {
    h[i].Say? && (h[i].isAdmin || h[i].user == user) && ConnectedBefore(h, user, i)
  }

  function Sender(e: Event): string
    requires e.Say?
  {
    if e.isAdmin then "Admin" else e.user
  }

  predicate MarkedAfter(h: seq<Event>, user: string, sender: string, i: nat) {
    exists j :: i < j < |h| && h[j] == Mark(user, sender)
  }

  /** The i-th event as it stands in the user's log at the end of the history. */
  function Shown(h: seq<Event>, user: string, i: nat): Message
    requires i < |h| && h[i].Say?
  {
    Message(Sender(h[i]), h[i].text, MarkedAfter(h, user, Sender(h[i]), i))
  }

  /** The user's log: the delivered events among the first `n`, in order. */
  function Log(h: seq<Event>, user: string, n: nat): seq<Message>
    requires n <= |h|
  {
    if n == 0 then []
    else Log(h, user, n - 1) + if Delivered(h, user, n - 1) then [Shown(h, user, n - 1)] else []
  }

  // ---- One more event -----------------------------------------------------------------------

  lemma PrefixFacts(h: seq<Event>, e: Event, user: string, i: nat)
    requires i < |h|
    ensures ConnectedBefore(h + [e], user, i) <==> ConnectedBefore(h, user, i)
    ensures Delivered(h + [e], user, i) <==> Delivered(h, user, i)
    ensures forall sender :: MarkedAfter(h + [e], user, sender, i) <==> MarkedAfter(h, user, sender, i) || e == Mark(user, sender)
  {
    assert forall j :: 0 <= j < |h| ==> (h + [e])[j] == h[j];
    assert (h + [e])[|h|] == e;
  }

  function MarkIf(log: seq<Message>, e: Event, user: string): seq<Message> {
    if e.Mark? && e.user == user then MarkRead(log, e.sender) else log
  }

  /** A further event marks what the log already holds, and nothing else about it. */
  lemma {:induction false} LogPrefix(h: seq<Event>, e: Event, user: string, n: nat)
    requires n <= |h|
    ensures Log(h + [e], user, n) == MarkIf(Log(h, user, n), e, user)
  {
    if n > 0 {
      LogPrefix(h, e, user, n - 1);
      PrefixFacts(h, e, user, n - 1);
      assert (h + [e])[n - 1] == h[n - 1];
      var last := Log(h, user, n)[|Log(h, user, n - 1)|..];
      assert Log(h, user, n) == Log(h, user, n - 1) + last;
      if Delivered(h, user, n - 1) {
        assert last == [Shown(h, user, n - 1)];
      }
    }
  }

  lemma ConnectedAtEnd(h: seq<Event>, e: Event, user: string)
    ensures ConnectedBefore(h + [e], user, |h|) <==> ConnectedBefore(h, user, |h|)
    ensures ConnectedBefore(h + [e], user, |h| + 1) <==> ConnectedBefore(h, user, |h|) || e == Connect(user, false)
  {
    assert forall j :: 0 <= j < |h| ==> (h + [e])[j] == h[j];
    assert (h + [e])[|h|] == e;
  }

  lemma {:induction false} NoLogBeforeConnect(h: seq<Event>, user: string, n: nat)
    requires n <= |h| && !ConnectedBefore(h, user, |h|)
    ensures Log(h, user, n) == []
  {
    if n > 0 {
      NoLogBeforeConnect(h, user, n - 1);
    }
  }

  lemma LogStep(h: seq<Event>, e: Event, user: string)
    ensures Log(h + [e], user, |h| + 1)
            == MarkIf(Log(h, user, |h|), e, user)
               + if e.Say? && (e.isAdmin || e.user == user) && ConnectedBefore(h, user, |h|)
                 then [Message(Sender(e), e.text, false)] else []
  {
    LogPrefix(h, e, user, |h|);
    ConnectedAtEnd(h, e, user);
    assert (h + [e])[|h|] == e;
    assert e.Say? ==> !MarkedAfter(h + [e], user, Sender(e), |h|);
  }

  /**
   * Log refinement: after any history a session exists exactly for the users that connected, and its
   * log is, in order, the broadcasts since that user's first connect merged with the user's own
   * messages, each read iff that user later marked its sender.
   */
  lemma {:induction false} LogsFollowHistory(h: seq<Event>)
    ensures forall user :: user in Run(h) <==> ConnectedBefore(h, user, |h|)
    ensures forall user :: user in Run(h) ==> Run(h)[user] == Log(h, user, |h|)
  {
    if h != [] {
      var before, e := h[..|h| - 1], h[|h| - 1];
      LogsFollowHistory(before);
      assert before + [e] == h;
      forall user
        ensures user in Run(h) <==> ConnectedBefore(h, user, |h|)
        ensures user in Run(h) ==> Run(h)[user] == Log(h, user, |h|)
      {
        ConnectedAtEnd(before, e, user);
        LogStep(before, e, user);
        StepMatches(Run(before), e, user);
        if user !in Run(before) {
          NoLogBeforeConnect(before, user, |before|);
        }
      }
    }
  }

  /** What one event does to one user's log. */
  lemma StepMatches(s: Sessions, e: Event, user: string)
    ensures user in Apply(s, e) <==> user in s || e == Connect(user, false)
    ensures user in Apply(s, e) ==>
      Apply(s, e)[user] == MarkIf(if user in s then s[user] else [], e, user)
        + if user in s && e.Say? && (e.isAdmin || e.user == user) then [Message(Sender(e), e.text, false)] else []
  {
  }

  /** Connecting again, or marking twice, changes nothing. */
  lemma RepeatsChangeNothing(s: Sessions, user: string, isAdmin: bool, sender: string)
    ensures Apply(Apply(s, Connect(user, isAdmin)), Connect(user, isAdmin)) == Apply(s, Connect(user, isAdmin))
    ensures Apply(Apply(s, Mark(user, sender)), Mark(user, sender)) == Apply(s, Mark(user, sender))
  {
    var once := Apply(s, Mark(user, sender));
    if user in s {
      assert MarkRead(MarkRead(s[user], sender), sender) == MarkRead(s[user], sender);
    }
  }

  lemma RunOneMore(h: seq<Event>, e: Event)
    ensures Run(h + [e]) == Apply(Run(h), e)
  {
    assert (h + [e])[..|h|] == h;
  }

  // ---- The gateway --------------------------------------------------------------------------

  class ChatGateway {
    var sessions: Sessions
    ghost var history: seq<Event>

    ghost predicate Valid()
      reads this
    {
      sessions == Run(history)
    }

    constructor ()
      ensures Valid() && history == []
    {
      sessions, history := map[], [];
    }

    method HandleConnection(user: string, isAdmin: bool)
      requires Valid()
      modifies this
      ensures Valid() && history == old(history) + [Connect(user, isAdmin)]
    {
      RunOneMore(history, Connect(user, isAdmin));
      hide Run;
      if !isAdmin && user !in sessions {
        sessions := sessions[user := []];
      }
      history := history + [Connect(user, isAdmin)];
    }

    /** Returns false when the source throws: a client message without a session. */
    method HandleChat(user: string, isAdmin: bool, text: string) returns (ok: bool)
      requires Valid()
      modifies this
      ensures Valid() && history == old(history) + [Say(user, isAdmin, text)]
      ensures ok <==> isAdmin || ConnectedBefore(old(history), user, |old(history)|)
    {
      LogsFollowHistory(history);
      RunOneMore(history, Say(user, isAdmin, text));
      hide Run, Log, Delivered, Shown, ConnectedBefore;
      ok := isAdmin || user in sessions;
      if isAdmin {
        Broadcast(text);
      } else if ok {
        sessions := sessions[user := sessions[user] + [Message(user, text, false)]];
      }
      history := history + [Say(user, isAdmin, text)];
    }

    /** Pushes to every session, in whatever order the keys come. */
    method Broadcast(text: string)
      modifies this`sessions
      ensures sessions == ToEveryone(old(sessions), text)
    {
      var users := sessions.Keys;
      while users != {}
        invariant users <= sessions.Keys == old(sessions).Keys
        invariant forall u :: u in users ==> sessions[u] == old(sessions)[u]
        invariant forall u :: u in old(sessions) && u !in users ==> sessions[u] == old(sessions)[u] + [Message("Admin", text, false)]
        decreases |users|
      {
        var u :| u in users;
        sessions := sessions[u := sessions[u] + [Message("Admin", text, false)]];
        users := users - {u};
      }
    }

    method MarkAsRead(user: string, sender: string)
      requires Valid()
      modifies this
      ensures Valid() && history == old(history) + [Mark(user, sender)]
    {
      RunOneMore(history, Mark(user, sender));
      hide Run;
      if user in sessions {
        var log := sessions[user];
        for i := 0 to |log|
          invariant |log| == |old(sessions)[user]|
          invariant forall j :: 0 <= j < |log| ==>
            log[j] == if j < i && old(sessions)[user][j].from == sender then old(sessions)[user][j].(read := true) else old(sessions)[user][j]
        {
          if log[i].from == sender {
            log := log[i := log[i].(read := true)];
          }
        }
        assert log == MarkRead(old(sessions)[user], sender);
        sessions := sessions[user := log];
      }
      history := history + [Mark(user, sender)];
    }
  }
}
