/** The typed GitHub card (GitHubCard.tsx). Every write after the `await`s is
    guarded by the cycle's `isCancelled` flag, which the cleanup sets, and every
    failure is reported with one fixed message. */
module GitHubCardTsx {
  import opened Common
  import opened Lifecycle
  import opened GitHubApi

  const FailureMessage: string := "Failed to load GitHub profile. Check the username or network."

  datatype State = State(data: Option<User>, loading: bool, error: Option<string>)

  datatype Card = Card(tracker: Tracker<string>, state: State)

  type Trace = seq<Event<string, Reply<User>>>

  /** The state the component is created with, before its effect has run. */
  function Initial(): Card {
    Card(Unmounted(), State(None, true, None))
  }

  /** What holds in every configuration the card can reach. */
  predicate Inv(c: Card) {
    && Valid(c.tracker)
    && LoadingTracksLive(c.tracker, c.state.loading)
    && (c.state.loading ==> c.state.error.None?)
    && (c.state.error.Some? ==> c.state.error.value == FailureMessage)
  }

  /** The writes of an uncancelled completion: the profile on success, the
      fixed message on any failure, and `loading` cleared in `finally`. */
  function Settle(s: State, reply: Reply<User>): State {
    match Payload(reply)
    case Some(user) => s.(data := Some(user), loading := false)
    case None => s.(error := Some(FailureMessage), loading := false)
  }

  function Step(c: Card, e: Event<string, Reply<User>>): (r: Card)
    ensures Inv(c) ==> Inv(r)
    // an unchanged username starts nothing
    ensures e.Start? && c.tracker.key == Some(e.key) ==> r == c
    // a new username: one new cycle (one request) for it, loading on, error
    // cleared, the profile kept
    ensures e.Start? && c.tracker.key != Some(e.key) ==>
              && r.tracker.started == c.tracker.started + [e.key]
              && r.state == State(c.state.data, true, None)
    // a completion of any cycle but the live one changes nothing
    ensures e.Complete? && c.tracker.live != Some(e.cycle) ==>
              r.state == c.state && r.tracker.live == c.tracker.live
    // the live cycle's success stores the profile and leaves the error alone
    ensures e.Complete? && c.tracker.live == Some(e.cycle) && e.cycle in c.tracker.inflight
            && Payload(e.outcome).Some? ==>
              r.state == State(Payload(e.outcome), false, c.state.error)
    // the live cycle's failure, of whatever kind, reports the fixed message and
    // keeps the previous profile
    ensures e.Complete? && c.tracker.live == Some(e.cycle) && e.cycle in c.tracker.inflight
            && Payload(e.outcome).None? ==>
              r.state == State(c.state.data, false, Some(FailureMessage))
    // teardown writes nothing and leaves no live cycle
    ensures e.Cleanup? ==> r.state == c.state && r.tracker.live.None?
  {
    match e
    case Start(k) =>
      if c.tracker.key == Some(k) then c
      else Card(Rerun(c.tracker, k, true), c.state.(loading := true, error := None))
    case Complete(id, reply) =>
      if id !in c.tracker.inflight then c
      else if c.tracker.live == Some(id) then Card(Settled(c.tracker, id), Settle(c.state, reply))
      else Card(Settled(c.tracker, id), c.state)
    case Cleanup =>
      Card(Disposed(c.tracker), c.state)
  }

  function Run(c: Card, trace: Trace): (r: Card)
    ensures Inv(c) ==> Inv(r)
    decreases |trace|
  {
    if trace == [] then c else Run(Step(c, trace[0]), trace[1..])
  }

  lemma RunAppend(c: Card, t: Trace, e: Event<string, Reply<User>>)
    ensures Run(c, t + [e]) == Step(Run(c, t), e)
    decreases |t|
  {
    if t != [] {
      assert (t + [e])[1..] == t[1..] + [e];
      RunAppend(Step(c, t[0]), t[1..], e);
    }
  }

  /** Every reachable configuration satisfies the invariant: in particular the
      spinner shows exactly while the live cycle is outstanding, and an error is
      never shown together with the spinner. */
  lemma ReachableInv(trace: Trace)
    ensures Inv(Run(Initial(), trace))
  {
  }

  /** No out-of-order overwrite: once a cycle has been superseded, any number of
      late completions of older cycles leave the state exactly as it was. */
  lemma {:induction false} StaleCompletionsChangeNothing(c: Card, late: Trace)
    requires forall i :: 0 <= i < |late| ==> late[i].Complete? && c.tracker.live != Some(late[i].cycle)
    ensures Run(c, late).state == c.state
    ensures Run(c, late).tracker.live == c.tracker.live
    decreases |late|
  {
    if late != [] {
      var c' := Step(c, late[0]);
      assert forall i :: 0 <= i < |late[1..]| ==> late[1..][i] == late[i + 1];
      StaleCompletionsChangeNothing(c', late[1..]);
    }
  }

  /** A username changed before its request resolved leaves no trace, whichever
      of the two replies arrives first: the card ends as if only the second
      username had ever been asked for. */
  lemma OutOfOrderResolution(a: string, b: string, ra: Reply<User>, rb: Reply<User>)
    requires a != b
    ensures Run(Initial(), [Start(a), Start(b), Complete(1, rb), Complete(0, ra)]).state
         == Run(Initial(), [Start(b), Complete(0, rb)]).state
    ensures Run(Initial(), [Start(a), Start(b), Complete(0, ra), Complete(1, rb)]).state
         == Run(Initial(), [Start(b), Complete(0, rb)]).state
  {
    var sa: Event<string, Reply<User>> := Start(a);
    var sb: Event<string, Reply<User>> := Start(b);
    var ca: Event<string, Reply<User>> := Complete(0, ra);
    var cb: Event<string, Reply<User>> := Complete(1, rb);
    var c0 := Initial();
    RunAppend(c0, [], sa);
    RunAppend(c0, [sa], sb);
    assert [sa] + [sb] == [sa, sb];
    RunAppend(c0, [sa, sb], cb);
    assert [sa, sb] + [cb] == [sa, sb, cb];
    RunAppend(c0, [sa, sb, cb], ca);
    assert [sa, sb, cb] + [ca] == [sa, sb, cb, ca];
    RunAppend(c0, [sa, sb], ca);
    assert [sa, sb] + [ca] == [sa, sb, ca];
    RunAppend(c0, [sa, sb, ca], cb);
    assert [sa, sb, ca] + [cb] == [sa, sb, ca, cb];
    var only: Event<string, Reply<User>> := Complete(0, rb);
    RunAppend(c0, [], sb);
    RunAppend(c0, [sb], only);
    assert [sb] + [only] == [sb, only];
  }

  /** What the card shows: the spinner, the error card, the profile. */
  datatype View = View(spinner: bool, errorCard: Option<string>, profile: Option<User>)

  /** The three guards of the markup: the spinner while loading, the error
      card for a truthy error, and the profile only when neither shows and a
      profile is present. */
  function Render(s: State): (v: View)
    ensures v.spinner <==> s.loading
    ensures v.errorCard.Some? <==> Truthy(s.error)
    ensures v.errorCard.Some? ==> v.errorCard == s.error
    ensures v.profile.Some? <==> !s.loading && !Truthy(s.error) && s.data.Some?
    ensures v.profile.Some? ==> v.profile == s.data
  {
    View(
      s.loading,
      if Truthy(s.error) then s.error else None,
      if !s.loading && !Truthy(s.error) && s.data.Some? then s.data else None)
  }

  /** In every reachable configuration the card shows at most one of the
      spinner, the error card and the profile, and an error card always carries
      the fixed message. */
  lemma ViewsExclusive(trace: Trace)
    ensures var v := Render(Run(Initial(), trace).state);
            && !(v.spinner && v.errorCard.Some?)
            && !(v.spinner && v.profile.Some?)
            && !(v.errorCard.Some? && v.profile.Some?)
            && (v.errorCard.Some? ==> v.errorCard.value == FailureMessage)
  {
    ReachableInv(trace);
  }

  /** The heading of the profile: `name ?? login`. Only a missing name falls
      back; an empty name is shown as it is. */
  function DisplayName(u: User): (heading: string)
    ensures u.name.Some? ==> heading == u.name.value
    ensures u.name.None? ==> heading == u.login
  {
    match u.name
    case Some(n) => n
    case None => u.login
  }
}
