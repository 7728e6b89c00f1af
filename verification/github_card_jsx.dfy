/** The untyped GitHub card (GitHubCard.jsx). An empty username starts no
    request; each request is aborted by the cleanup, an `AbortError` is never
    reported, but the `finally` that clears `loading` is not guarded. */
module GitHubCardJsx {
  import opened Common
  import opened Text
  import opened Lifecycle
  import opened GitHubApi
  import GitHubCardTsx

  datatype State = State(data: Option<User>, loading: bool, error: Option<string>)

  datatype Card = Card(tracker: Tracker<string>, state: State)

  type Trace = seq<Event<string, Reply<User>>>

  function Initial(): Card {
    Card(Unmounted(), State(None, false, None))
  }

  /** The message of the error thrown for a response that is not ok. */
  function StatusMessage(status: nat): (message: string)
    ensures "GitHub returned " < message
    ensures message[|"GitHub returned "|..] == DecimalOf(status)
  {
    "GitHub returned " + DecimalOf(status)
  }

  /** The surfaced message identifies the status: distinct statuses give
      distinct messages. */
  lemma StatusMessageInjective(a: nat, b: nat)
    ensures StatusMessage(a) == StatusMessage(b) <==> a == b
  {
    if StatusMessage(a) == StatusMessage(b) {
      PrefixedDecimalInjective("GitHub returned ", a, b);
    }
  }

  lemma NotFoundMessage()
    ensures StatusMessage(404) == "GitHub returned 404"
  {
    assert DecimalOf(4) == "4";
    assert DecimalOf(40) == "40";
    assert DecimalOf(404) == "404";
  }

  /** The error a live cycle reports for a reply, if any: the status for a
      response that is not ok, else the message the rejection carried. */
  function ErrorOf(reply: Reply<User>): (message: Option<string>)
    ensures message.None? <==> Payload(reply).Some?
    ensures reply.Response? && !IsOk(reply.status) ==> message == Some(StatusMessage(reply.status))
    ensures reply.NetworkError? ==> message == Some(reply.message)
    ensures reply.Response? && IsOk(reply.status) && reply.body.Malformed? ==> message == Some(reply.body.message)
  {
    match reply
    case NetworkError(m) => Some(m)
    case Response(status, body) =>
      if !IsOk(status) then Some(StatusMessage(status))
      else if body.Malformed? then Some(body.message)
      else None
  }

  /** The writes of a live cycle's completion: the profile or the error, then
      `loading` cleared in `finally`. */
  function Settle(s: State, reply: Reply<User>): State {
    match ErrorOf(reply)
    case Some(m) => s.(error := Some(m), loading := false)
    case None => s.(data := Payload(reply), loading := false)
  }

  /** What holds in every reachable configuration. */
  predicate Inv(c: Card) {
    && Valid(c.tracker)
    && (c.state.loading ==> c.state.error.None? && c.tracker.inflight != {})
    && (forall i :: 0 <= i < |c.tracker.started| ==> c.tracker.started[i] != "")
  }

  function Step(c: Card, e: Event<string, Reply<User>>): (r: Card)
    ensures Inv(c) ==> Inv(r)
    ensures e.Start? && c.tracker.key == Some(e.key) ==> r == c
    // an empty username: the old request is aborted, no request is issued and
    // nothing is written
    ensures e.Start? && e.key == "" && c.tracker.key != Some(e.key) ==>
              r.tracker.started == c.tracker.started && r.tracker.live.None? && r.state == c.state
    ensures e.Start? && e.key != "" && c.tracker.key != Some(e.key) ==>
              && r.tracker.started == c.tracker.started + [e.key]
              && r.state == State(c.state.data, true, None)
    // an aborted cycle never sets the profile or the error, yet it clears loading
    ensures e.Complete? && c.tracker.live != Some(e.cycle) ==>
              && r.state.data == c.state.data && r.state.error == c.state.error
              && r.tracker.live == c.tracker.live
              && (e.cycle in c.tracker.inflight ==> !r.state.loading)
    ensures e.Complete? && c.tracker.live == Some(e.cycle) && e.cycle in c.tracker.inflight ==>
              && !r.state.loading
              && (ErrorOf(e.outcome).Some? ==> r.state == State(c.state.data, false, ErrorOf(e.outcome)))
              && (ErrorOf(e.outcome).None? ==> r.state == State(Payload(e.outcome), false, c.state.error))
    ensures e.Cleanup? ==> r.state == c.state && r.tracker.live.None?
  {
    match e
    case Start(k) =>
      if c.tracker.key == Some(k) then c
      else if k == "" then Card(Rerun(c.tracker, k, false), c.state)
      else Card(Rerun(c.tracker, k, true), c.state.(loading := true, error := None))
    case Complete(id, reply) =>
      if id !in c.tracker.inflight then c
      else if c.tracker.live == Some(id) then Card(Settled(c.tracker, id), Settle(c.state, reply))
      else Card(Settled(c.tracker, id), c.state.(loading := false))
    case Cleanup =>
      Card(Disposed(c.tracker), c.state)
  }

  function Run(c: Card, trace: Trace): (r: Card)
    ensures Inv(c) ==> Inv(r)
    decreases |trace|
  {
    if trace == [] then c else Run(Step(c, trace[0]), trace[1..])
  }

  lemma RunAppend(c: Card, t: Trace, e: Event<string, Reply<User>>)
    ensures Run(c, t + [e]) == Step(Run(c, t), e)
    decreases |t|
  {
    if t != [] {
      assert (t + [e])[1..] == t[1..] + [e];
      RunAppend(Step(c, t[0]), t[1..], e);
    }
  }

  /** No request is ever issued for an empty username, and the spinner is never
      shown together with an error. */
  lemma NoRequestForEmptyUsername(trace: Trace)
    ensures var c := Run(Initial(), trace);
            && (forall i :: 0 <= i < |c.tracker.started| ==> c.tracker.started[i] != "")
            && (c.state.loading ==> c.state.error.None?)
  {
  }

  /** Aborted cycles can only ever clear `loading`: any number of late
      completions of superseded cycles leave the profile and the error as they were. */
  lemma {:induction false} AbortedCompletionsKeepData(c: Card, late: Trace)
    requires forall i :: 0 <= i < |late| ==> late[i].Complete? && c.tracker.live != Some(late[i].cycle)
    ensures Run(c, late).state.data == c.state.data
    ensures Run(c, late).state.error == c.state.error
    ensures Run(c, late).tracker.live == c.tracker.live
    decreases |late|
  {
    if late != [] {
      assert forall i :: 0 <= i < |late[1..]| ==> late[1..][i] == late[i + 1];
      AbortedCompletionsKeepData(Step(c, late[0]), late[1..]);
    }
  }

  /** The unguarded `finally`: after the profile of `a` has loaded, typing `b`
      and then `c` aborts the request for `b`, whose rejection clears `loading`
      while the request for `c` is still outstanding. The card then shows the
      profile of `a` under the username `c`. */
  lemma AbortClearsLoadingOfNewerCycle(a: string, b: string, c: string, user: User, status: nat, rb: Reply<User>)
    requires a != "" && b != "" && c != "" && a != b && b != c
    requires IsOk(status)
    ensures var card := Run(Initial(), [Start(a), Complete(0, Response(status, Json(user))), Start(b), Start(c), Complete(1, rb)]);
            && card.tracker.live == Some(2) && 2 in card.tracker.inflight
            && !card.state.loading
            && Render(c, card.state) == Profile(user)
  {
    var e0: Event<string, Reply<User>> := Start(a);
    var e1: Event<string, Reply<User>> := Complete(0, Response(status, Json(user)));
    var e2: Event<string, Reply<User>> := Start(b);
    var e3: Event<string, Reply<User>> := Start(c);
    var e4: Event<string, Reply<User>> := Complete(1, rb);
    var c0 := Initial();
    RunAppend(c0, [], e0);
    RunAppend(c0, [e0], e1);
    assert [e0] + [e1] == [e0, e1];
    RunAppend(c0, [e0, e1], e2);
    assert [e0, e1] + [e2] == [e0, e1, e2];
    RunAppend(c0, [e0, e1, e2], e3);
    assert [e0, e1, e2] + [e3] == [e0, e1, e2, e3];
    RunAppend(c0, [e0, e1, e2, e3], e4);
    assert [e0, e1, e2, e3] + [e4] == [e0, e1, e2, e3, e4];
  }

  /** Changing the username before its reply arrives: once both replies are in,
      whichever arrived first, the card is as if only the second username had
      been asked for. */
  lemma OutOfOrderResolution(a: string, b: string, ra: Reply<User>, rb: Reply<User>)
    requires a != "" && b != "" && a != b
    ensures Run(Initial(), [Start(a), Start(b), Complete(1, rb), Complete(0, ra)]).state
         == Run(Initial(), [Start(b), Complete(0, rb)]).state
    ensures Run(Initial(), [Start(a), Start(b), Complete(0, ra), Complete(1, rb)]).state
         == Run(Initial(), [Start(b), Complete(0, rb)]).state
  {
    var sa: Event<string, Reply<User>> := Start(a);
    var sb: Event<string, Reply<User>> := Start(b);
    var ca: Event<string, Reply<User>> := Complete(0, ra);
    var cb: Event<string, Reply<User>> := Complete(1, rb);
    var c0 := Initial();
    RunAppend(c0, [], sa);
    RunAppend(c0, [sa], sb);
    assert [sa] + [sb] == [sa, sb];
    RunAppend(c0, [sa, sb], cb);
    assert [sa, sb] + [cb] == [sa, sb, cb];
    RunAppend(c0, [sa, sb, cb], ca);
    assert [sa, sb, cb] + [ca] == [sa, sb, cb, ca];
    RunAppend(c0, [sa, sb], ca);
    assert [sa, sb] + [ca] == [sa, sb, ca];
    RunAppend(c0, [sa, sb, ca], cb);
    assert [sa, sb, ca] + [cb] == [sa, sb, ca, cb];
    var only: Event<string, Reply<User>> := Complete(0, rb);
    RunAppend(c0, [], sb);
    RunAppend(c0, [sb], only);
    assert [sb] + [only] == [sb, only];
  }

  /** A fresh card whose first request is answered with a status that is not
      ok: no profile is ever set, and the error card shows the status. */
  lemma NonOkStatusShown(username: string, status: nat, body: Body<User>)
    requires username != "" && !IsOk(status)
    ensures var c := Run(Initial(), [Start(username), Complete(0, Response(status, body))]);
            && c.state == State(None, false, Some(StatusMessage(status)))
            && Render(username, c.state) == ErrorCard(StatusMessage(status))
  {
    var e0: Event<string, Reply<User>> := Start(username);
    var e1: Event<string, Reply<User>> := Complete(0, Response(status, body));
    var c0 := Initial();
    RunAppend(c0, [], e0);
    RunAppend(c0, [e0], e1);
    assert [e0] + [e1] == [e0, e1];
  }

  /** What the card renders, by precedence. */
  datatype Screen = Prompt | Spinner | ErrorCard(message: string) | Profile(user: User) | Blank

  function Render(username: string, s: State): (v: Screen)
    ensures v == Prompt <==> username == ""
    ensures v == Spinner <==> username != "" && s.loading
    ensures v.ErrorCard? <==> username != "" && !s.loading && Truthy(s.error)
    ensures v.Profile? <==> username != "" && !s.loading && !Truthy(s.error) && s.data.Some?
    ensures v.Profile? ==> v.user == s.data.value
    ensures v.ErrorCard? ==> Some(v.message) == s.error
  {
    if username == "" then Prompt
    else if s.loading then Spinner
    else if Truthy(s.error) then ErrorCard(s.error.value)
    else if s.data.Some? then Profile(s.data.value)
    else Blank
  }

  /** The heading of the profile: `name || login`, so an empty name falls back
      to the login as well as a missing one. */
  function DisplayName(u: User): (heading: string)
    ensures Truthy(u.name) ==> heading == u.name.value
    ensures !Truthy(u.name) ==> heading == u.login
  {
    if Truthy(u.name) then u.name.value else u.login
  }

  /** The two copies of the card head a profile differently exactly when the
      user's name is the empty string and the login is not. */
  lemma DisplayNamesDiffer(u: User)
    ensures DisplayName(u) != GitHubCardTsx.DisplayName(u) <==> u.name == Some("") && u.login != ""
  {
  }
}
