/** The notifier thread: consumers subscribe and unsubscribe under a lock, while the thread LISTENs to
    a snapshot of the subscribed channels whenever a dirty flag tells it to. */
module Notifier {
  import opened Wrappers

  type Channel = string
  // A threading.Event of one consumer.
  type Event = nat

  type Subscriptions = map<Channel, set<Event>>

  // Where the thread is in ensure_conn.
  datatype Pc = Outside | Entered | Connected | Cleared | Snapshotted(channels: set<Channel>) | Relistening(rest: set<Channel>)

  // conn: the channels the connection LISTENs to, if there is a connection.
  datatype State = State(subscriptions: Subscriptions, dirty: bool, conn: Option<set<Channel>>, pc: Pc, woken: set<Event>)

  datatype Step =
    | Subscribe(ch: Channel, e: Event)
    | Unsubscribe(ch: Channel, e: Event)
    | Enter
    | GetConn(inherited: set<Channel>)
    | Clear
    | Snapshot
    | UnlistenAll
    | Listen(ch: Channel)
    | Leave
    | Fail
    | Notify(ch: Channel)

  function Subscribers(subs: Subscriptions, ch: Channel): set<Event> {
    if ch in subs then subs[ch] else {}
  }

  function Subscribed(subs: Subscriptions, ch: Channel, e: Event): Subscriptions {
    subs[ch := Subscribers(subs, ch) + {e}]
  }

  /** Whether this removes the last event of the channel. */
  predicate RemovesLast(subs: Subscriptions, ch: Channel, e: Event) {
    ch in subs && subs[ch] - {e} == {}
  }

  function Unsubscribed(subs: Subscriptions, ch: Channel, e: Event): Subscriptions {
    if ch !in subs then subs
    else if RemovesLast(subs, ch, e) then subs - {ch}
    else subs[ch := subs[ch] - {e}]
  }

  predicate Enabled(s: State, a: Step) {
    match a
    case Subscribe(_, _) => true
    case Unsubscribe(_, _) => true
    case Enter => s.pc == Outside && (s.conn == None || s.dirty)
    case GetConn(_) => s.pc == Entered
    case Clear => s.pc == Connected
    case Snapshot => s.pc == Cleared
    case UnlistenAll => s.pc.Snapshotted?
    case Listen(ch) => s.pc.Relistening? && ch in s.pc.rest && s.conn.Some?
    case Leave => s.pc == Relistening({})
    case Fail => true
    case Notify(ch) => s.pc == Outside && s.conn.Some? && ch in s.conn.value
  }

  function Apply(s: State, a: Step): State
    requires Enabled(s, a)
  {
    match a
    case Subscribe(ch, e) => s.(subscriptions := Subscribed(s.subscriptions, ch, e), dirty := true)
    case Unsubscribe(ch, e) =>
      s.(subscriptions := Unsubscribed(s.subscriptions, ch, e), dirty := s.dirty || RemovesLast(s.subscriptions, ch, e))
    case Enter => s.(pc := Entered)
    // Whatever the connection listened to before.
    case GetConn(inherited) => s.(conn := if s.conn == None then Some(inherited) else s.conn, pc := Connected)
    case Clear => s.(dirty := false, pc := Cleared)
    case Snapshot => s.(pc := Snapshotted(s.subscriptions.Keys))
    case UnlistenAll => s.(conn := if s.conn == None then None else Some({}), pc := Relistening(s.pc.channels))
    case Listen(ch) => s.(conn := Some(s.conn.value + {ch}), pc := Relistening(s.pc.rest - {ch}))
    case Leave => s.(pc := Outside)
    // The connection is dropped, wherever the thread is.
    case Fail => s.(conn := None, pc := Outside)
    case Notify(ch) => s.(woken := s.woken + Subscribers(s.subscriptions, ch))
  }

  datatype Run = Run(states: seq<State>, steps: seq<Step>)

  predicate Follows(s: State, a: Step, s': State) {
    Enabled(s, a) && s' == Apply(s, a)
  }

  ghost predicate IsRun(r: Run) {
    && |r.states| == |r.steps| + 1
    && r.states[0] == State(map[], false, None, Outside, {})
    && forall i {:trigger r.steps[i]} | 0 <= i < |r.steps| :: Follows(r.states[i], r.steps[i], r.states[i + 1])
  }

  /** While the flag is clear, what the thread has listened to and still will is what is subscribed. */
  predicate InStep(s: State) {
    && (s.pc != Outside && s.pc != Entered ==> s.conn.Some?)
    && (s.conn.Some? && !s.dirty ==>
          match s.pc
          case Outside => s.conn.value == s.subscriptions.Keys
          case Snapshotted(channels) => channels == s.subscriptions.Keys
          case Relistening(rest) => s.conn.value + rest == s.subscriptions.Keys
          case _ => true)
  }

  lemma UnsubscribedKeys(subs: Subscriptions, ch: Channel, e: Event)
    ensures Unsubscribed(subs, ch, e).Keys == if RemovesLast(subs, ch, e) then subs.Keys - {ch} else subs.Keys
  {
  }

  lemma InStepStep(s: State, a: Step)
    requires Enabled(s, a) && InStep(s)
    ensures InStep(Apply(s, a))
  {
    match a
    case Unsubscribe(ch, e) => UnsubscribedKeys(s.subscriptions, ch, e);
    case Listen(ch) => assert s.conn.value + {ch} + (s.pc.rest - {ch}) == s.conn.value + s.pc.rest;
    case Leave => assert s.conn.value + {} == s.conn.value;
    case _ =>
  }

  lemma {:induction false} InStepAlways(r: Run, k: nat)
    requires IsRun(r) && k < |r.states|
    ensures InStep(r.states[k])
  {
    if k > 0 {
      InStepAlways(r, k - 1);
      InStepStep(r.states[k - 1], r.steps[k - 1]);
    }
  }

  /** The notifier never forgets a channel: with a connection, a clear flag and the thread outside
      ensure_conn, the LISTENed channels are the subscribed ones. */
  lemma NeverForgets(r: Run, k: nat)
    requires IsRun(r) && k < |r.states|
    requires r.states[k].conn.Some? && !r.states[k].dirty && r.states[k].pc == Outside
    ensures r.states[k].conn.value == r.states[k].subscriptions.Keys
  {
    InStepAlways(r, k);
  }

  /** In such a state a notification on a subscribed channel reaches the thread and wakes exactly the
      events subscribed to it. */
  lemma SubscribersAreWoken(r: Run, k: nat, ch: Channel)
    requires IsRun(r) && k < |r.states|
    requires r.states[k].conn.Some? && !r.states[k].dirty && r.states[k].pc == Outside
    requires ch in r.states[k].subscriptions
    ensures Enabled(r.states[k], Notify(ch))
    ensures forall e :: e in Apply(r.states[k], Notify(ch)).woken <==>
              e in r.states[k].woken || e in r.states[k].subscriptions[ch]
  {
    NeverForgets(r, k);
  }

  /** A change of the subscribed channels while the thread re-LISTENs is never lost: the flag is set
      again when it leaves, or it listens to the new set. */
  lemma ChangeIsSeen(r: Run, k: nat)
    requires IsRun(r) && k < |r.steps| && r.steps[k].Leave?
    ensures var s' := r.states[k + 1]; s'.dirty || s'.conn == Some(s'.subscriptions.Keys)
  {
    InStepAlways(r, k + 1);
    InStepAlways(r, k);
    assert Follows(r.states[k], r.steps[k], r.states[k + 1]);
  }

  // ----- Who is subscribed

  /** The event is subscribed to the channel. */
  predicate Has(subs: Subscriptions, ch: Channel, e: Event) {
    ch in subs && e in subs[ch]
  }

  /** A subscription adds the event to its channel; the other events and the other channels stay. */
  ghost predicate IsSubscription(before: Subscriptions, after: Subscriptions, ch: Channel, e: Event) {
    && after.Keys == before.Keys + {ch}
    && forall c, x :: Has(after, c, x) <==> Has(before, c, x) || (c == ch && x == e)
  }

  /** The end of one removes that event from that channel, and the channel itself if no event is left. */
  ghost predicate IsUnsubscription(before: Subscriptions, after: Subscriptions, ch: Channel, e: Event) {
    && (forall c, x :: Has(after, c, x) <==> Has(before, c, x) && !(c == ch && x == e))
    && (forall c | c != ch :: c in after <==> c in before)
    && (ch in after <==> exists x :: Has(before, ch, x) && x != e)
  }

  lemma SubscribedIs(subs: Subscriptions, ch: Channel, e: Event)
    ensures IsSubscription(subs, Subscribed(subs, ch, e), ch, e)
  {
  }

  lemma UnsubscribedIs(subs: Subscriptions, ch: Channel, e: Event)
    ensures IsUnsubscription(subs, Unsubscribed(subs, ch, e), ch, e)
  {
    var after := Unsubscribed(subs, ch, e);
    if ch in subs && !RemovesLast(subs, ch, e) {
      var x :| x in subs[ch] - {e};
      assert Has(subs, ch, x) && x != e;
    }
    if x :| Has(subs, ch, x) && x != e {
      assert x in subs[ch] - {e};
    }
  }

  /** Step j subscribes the event, and no later one before k ends that. */
  ghost predicate LiveSince(r: Run, j: nat, k: nat, ch: Channel, e: Event) {
    j < k <= |r.steps| && r.steps[j] == Subscribe(ch, e) && forall i | j < i < k :: r.steps[i] != Unsubscribe(ch, e)
  }

  lemma HasStep(s: State, a: Step, ch: Channel, e: Event)
    requires Enabled(s, a)
    ensures Has(Apply(s, a).subscriptions, ch, e) <==>
              a == Subscribe(ch, e) || (Has(s.subscriptions, ch, e) && a != Unsubscribe(ch, e))
  {
    match a
    case Subscribe(c, x) => SubscribedIs(s.subscriptions, c, x);
    case Unsubscribe(c, x) => UnsubscribedIs(s.subscriptions, c, x);
    case _ =>
  }

  /** An event is subscribed exactly if it has been, and not unsubscribed since. */
  lemma {:induction false} SubscribedIffLive(r: Run, k: nat, ch: Channel, e: Event)
    requires IsRun(r) && k < |r.states|
    ensures Has(r.states[k].subscriptions, ch, e) <==> exists j :: LiveSince(r, j, k, ch, e)
  {
    if k > 0 {
      var h := k - 1;
      var a := r.steps[h];
      SubscribedIffLive(r, h, ch, e);
      assert Follows(r.states[h], a, r.states[k]);
      HasStep(r.states[h], a, ch, e);
      if j :| LiveSince(r, j, h, ch, e) {
        assert a != Unsubscribe(ch, e) ==> LiveSince(r, j, k, ch, e);
      }
      if a == Subscribe(ch, e) {
        assert LiveSince(r, h, k, ch, e);
      }
      if j :| LiveSince(r, j, k, ch, e) {
        assert j == h || LiveSince(r, j, h, ch, e);
      }
    }
  }

  lemma {:induction false} NoEmptyChannel(r: Run, k: nat, ch: Channel)
    requires IsRun(r) && k < |r.states| && ch in r.states[k].subscriptions
    ensures r.states[k].subscriptions[ch] != {}
  {
    assert Follows(r.states[k - 1], r.steps[k - 1], r.states[k]);
    if ch in r.states[k - 1].subscriptions {
      NoEmptyChannel(r, k - 1, ch);
    }
  }

  /** The LISTENed channels are those some event has subscribed to and not left since. */
  lemma ListensToLive(r: Run, k: nat, ch: Channel)
    requires IsRun(r) && k < |r.states|
    requires r.states[k].conn.Some? && !r.states[k].dirty && r.states[k].pc == Outside
    ensures ch in r.states[k].conn.value <==> exists e, j :: LiveSince(r, j, k, ch, e)
  {
    NeverForgets(r, k);
    if ch in r.states[k].subscriptions {
      NoEmptyChannel(r, k, ch);
      var e :| e in r.states[k].subscriptions[ch];
      SubscribedIffLive(r, k, ch, e);
    }
    if e, j :| LiveSince(r, j, k, ch, e) {
      SubscribedIffLive(r, k, ch, e);
    }
  }

  // ----- The thread catches up

  /** A step of ensure_conn. */
  predicate IsOwn(a: Step) {
    a.Enter? || a.GetConn? || a.Clear? || a.Snapshot? || a.UnlistenAll? || a.Listen? || a.Leave?
  }

  predicate CaughtUp(s: State) {
    s.pc == Outside && s.conn == Some(s.subscriptions.Keys) && !s.dirty
  }

  /** Left alone, the thread is never stuck, and has caught up after at most `n` of its steps, whichever
      channel it takes next. */
  ghost predicate CatchesUpWithin(s: State, n: nat)
    decreases n
  {
    CaughtUp(s) || (n > 0 && (exists a :: IsOwn(a) && Enabled(s, a))
                    && forall a | IsOwn(a) && Enabled(s, a) :: CatchesUpWithin(Apply(s, a), n - 1))
  }

  /** The steps left: a second round, if the flag was set again within the first. */
  function StepsLeft(s: State): nat {
    var round := |s.subscriptions| + 6;
    match s.pc
    case Outside => round
    case Entered => round - 1
    case Connected => round - 2
    case Cleared => round - 3 + if s.dirty then round else 0
    case Snapshotted(channels) => |channels| + 2 + if s.dirty then round else 0
    case Relistening(rest) => |rest| + 1 + if s.dirty then round else 0
  }

  lemma NextOwn(s: State) returns (a: Step)
    requires InStep(s) && !CaughtUp(s)
    ensures IsOwn(a) && Enabled(s, a)
  {
    match s.pc
    case Outside => a := Enter;
    case Entered => a := GetConn({});
    case Connected => a := Clear;
    case Cleared => a := Snapshot;
    case Snapshotted(_) => a := UnlistenAll;
    case Relistening(rest) =>
      if rest == {} {
        a := Leave;
      } else {
        var ch :| ch in rest;
        a := Listen(ch);
      }
  }

  lemma OwnStepCounts(s: State, a: Step)
    requires InStep(s) && IsOwn(a) && Enabled(s, a)
    ensures CaughtUp(Apply(s, a)) || StepsLeft(Apply(s, a)) < StepsLeft(s)
  {
    InStepStep(s, a);
    if a.Snapshot? {
      assert |s.subscriptions.Keys| == |s.subscriptions|;
    }
    if a.Listen? {
      assert |s.pc.rest - {a.ch}| == |s.pc.rest| - 1;
    }
  }

  lemma {:induction false} CatchesUp(s: State, n: nat)
    requires InStep(s) && n >= StepsLeft(s)
    ensures CatchesUpWithin(s, n)
    decreases n
  {
    if !CaughtUp(s) {
      var next := NextOwn(s);
      forall a | IsOwn(a) && Enabled(s, a) ensures CatchesUpWithin(Apply(s, a), n - 1) {
        OwnStepCounts(s, a);
        InStepStep(s, a);
        if !CaughtUp(Apply(s, a)) {
          CatchesUp(Apply(s, a), n - 1);
        }
      }
    }
  }

  /** The channels of the snapshot that the thread has not listened to yet. */
  function StillToListen(s: State): set<Channel> {
    match s.pc
    case Snapshotted(channels) => channels
    case Relistening(rest) => rest
    case _ => {}
  }

  /** Wherever the thread is, in every run: if subscriptions and the connection then stay as they are, it
      has caught up within a round or two, of six steps and one for each channel. */
  lemma AlwaysCatchesUp(r: Run, k: nat)
    requires IsRun(r) && k < |r.states|
    ensures CatchesUpWithin(r.states[k], 12 + 2 * |r.states[k].subscriptions| + |StillToListen(r.states[k])|)
  {
    InStepAlways(r, k);
    CatchesUp(r.states[k], 12 + 2 * |r.states[k].subscriptions| + |StillToListen(r.states[k])|);
  }

  /** One more step of a run. */
  function Extended(r: Run, a: Step, s: State): Run {
    Run(r.states + [s], r.steps + [a])
  }

  /** Consumers come and go, and the connection fails, wherever the thread is. */
  lemma OthersAnyTime(r: Run, a: Step)
    requires IsRun(r) && (a.Subscribe? || a.Unsubscribe? || a == Fail)
    ensures exists s' :: IsRun(Extended(r, a, s')) && (a == Fail ==> s'.conn == None && s'.pc == Outside)
                         && (a != Fail ==> s'.conn == r.states[|r.steps|].conn && s'.pc == r.states[|r.steps|].pc)
  {
    var s := r.states[|r.steps|];
    var longer := Extended(r, a, Apply(s, a));
    forall i {:trigger longer.steps[i]} | 0 <= i < |longer.steps|
      ensures Follows(longer.states[i], longer.steps[i], longer.states[i + 1])
    {
      if i < |r.steps| {
        assert Follows(r.states[i], r.steps[i], r.states[i + 1]);
      }
    }
    assert IsRun(Extended(r, a, Apply(s, a)));
  }

  // ----- The object

  datatype Change = Add(ch: Channel, e: Event) | Remove(ch: Channel, e: Event)

  /** The subscriptions after the changes. */
  function Changed(subs: Subscriptions, changes: seq<Change>): Subscriptions {
    if changes == [] then subs
    else
      var before := Changed(subs, changes[..|changes| - 1]);
      match changes[|changes| - 1]
      case Add(ch, e) => Subscribed(before, ch, e)
      case Remove(ch, e) => Unsubscribed(before, ch, e)
  }

  class NotifierThread {
    var subscriptions: Subscriptions
    var dirty: bool
    var startedOnce: bool
    var conn: Option<set<Channel>>

    constructor ()
      ensures subscriptions == map[] && !dirty && !startedOnce && conn == None
    {
      subscriptions, dirty, startedOnce, conn := map[], false, false, None;
    }

    method Subscribe(ch: Channel, e: Event) returns (started: bool)
      modifies this`subscriptions, this`dirty, this`startedOnce
      ensures subscriptions == Subscribed(old(subscriptions), ch, e) && dirty
      ensures IsSubscription(old(subscriptions), subscriptions, ch, e)
      ensures startedOnce && started == !old(startedOnce)
    {
      SubscribedIs(subscriptions, ch, e);
      if ch !in subscriptions {
        subscriptions := subscriptions[ch := {}];
      }
      subscriptions := subscriptions[ch := subscriptions[ch] + {e}];
      dirty := true;
      started := false;
      if !startedOnce {
        startedOnce, started := true, true;
      }
    }

    method Unsubscribe(ch: Channel, e: Event)
      modifies this`subscriptions, this`dirty
      ensures subscriptions == Unsubscribed(old(subscriptions), ch, e)
      ensures IsUnsubscription(old(subscriptions), subscriptions, ch, e)
      ensures dirty == (old(dirty) || RemovesLast(old(subscriptions), ch, e))
      ensures dirty == (old(dirty) || (ch in old(subscriptions) && ch !in subscriptions))
    {
      UnsubscribedIs(subscriptions, ch, e);
      if ch !in subscriptions {
        return;
      }
      var events := subscriptions[ch] - {e};
      subscriptions := subscriptions[ch := events];
      if events == {} {
        subscriptions := subscriptions - {ch};
        dirty := true;
      }
    }

    /** Consumers subscribing and unsubscribing meanwhile. */
    method Meanwhile(changes: seq<Change>)
      modifies this`subscriptions, this`dirty, this`startedOnce
      ensures subscriptions == Changed(old(subscriptions), changes)
      ensures changes == [] ==> dirty == old(dirty)
      ensures !dirty ==> !old(dirty) && subscriptions.Keys == old(subscriptions).Keys
    {
      for k := 0 to |changes|
        invariant subscriptions == Changed(old(subscriptions), changes[..k])
        invariant k == 0 ==> dirty == old(dirty)
        invariant !dirty ==> !old(dirty) && subscriptions.Keys == old(subscriptions).Keys
      {
        assert changes[..k + 1][..k] == changes[..k];
        match changes[k]
        case Add(ch, e) =>
          var started := Subscribe(ch, e);
        case Remove(ch, e) =>
          UnsubscribedKeys(subscriptions, ch, e);
          Unsubscribe(ch, e);
      }
      assert changes[..|changes|] == changes;
    }

    /** Ensure that the connection LISTENs to the subscribed channels; `early` changes come between the
        clearing of the flag and the snapshot, `late` ones after the snapshot. */
    method EnsureConn(inherited: set<Channel>, early: seq<Change>, late: seq<Change>)
      modifies this
      ensures conn.Some?
      ensures old(conn).Some? && !old(dirty) ==> conn == old(conn) && subscriptions == old(subscriptions) && !dirty
      ensures old(conn).None? || old(dirty) ==>
                && (!dirty ==> conn.value == subscriptions.Keys)
                && conn.value == Changed(old(subscriptions), early).Keys
                && subscriptions == Changed(Changed(old(subscriptions), early), late)
      ensures early == [] && late == [] ==> !dirty && subscriptions == old(subscriptions)
    {
      if conn.Some? && !dirty {
        return;
      }
      if conn.None? {
        conn := Some(inherited);
      }
      dirty := false;
      Meanwhile(early);
      var channels := subscriptions.Keys;
      Meanwhile(late);
      conn := Some({});
      var rest := channels;
      while rest != {}
        invariant conn.Some? && conn.value + rest == channels
        decreases rest
        modifies this`conn
      {
        var ch :| ch in rest;
        conn, rest := Some(conn.value + {ch}), rest - {ch};
      }
      assert channels + {} == channels;
    }
  }
}
