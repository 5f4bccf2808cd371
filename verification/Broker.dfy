/**
 The event broker of the dashboard: one mutex, one-slot channels, and a poller
 that starts with the first subscriber and stops with the last. Goroutines take
 interleaved atomic steps; a blocked goroutine is one with no step enabled.
 */
module Broker {
  import opened Tickets

  datatype Phase =
    | Selecting                                   // in the select
    | Fetched(id: nat)                            // read the latest id
    | ToSend(id: nat)                             // id is new: wants the lock
    | Sending(id: nat, remaining: set<nat>)       // holds it, these channels to go
    | Exited                                      // done is closed

  datatype Poller = Poller(last: nat, phase: Phase, cancelled: bool)

  // subscribe: one call per channel.
  datatype Joining = WantsJoin | Joined | Baselined(last: nat) | Subscribed

  // unsubscribe: any number of calls per channel.
  datatype Leaving =
    | WantsLeave(channel: nat) | HoldsLeave(channel: nat)
    | ToCancel(poller: nat) | Awaits(poller: nat) | Left

  datatype Holder = Free | ByJoin(channel: nat) | ByLeave(call: nat) | BySend(poller: nat)

  // Event ids are counted from 1, so they never repeat; 0 is the empty log. A
  // slot holds the buffered signal. mark is history: how many events there were
  // when the channel was last received from, or its subscribe returned.
  datatype State = State(
    log: nat, subs: map<nat, Option<nat>>, current: Option<nat>, lock: Holder,
    pollers: map<nat, Poller>, joins: map<nat, Joining>, leaves: map<nat, Leaving>, mark: map<nat, nat>)

  const INITIAL := State(0, map[], None, Free, map[], map[], map[], map[])

  datatype Action =
    | Commit
    | Receive(channel: nat)
    | StartJoin(channel: nat)
    | LockJoin(channel: nat)
    | Baseline(channel: nat, ok: bool)
    | FinishJoin(channel: nat, poller: nat)
    | StartLeave(call: nat, channel: nat)
    | LockLeave(call: nat)
    | FinishLeave(call: nat)
    | Cancel(call: nat)
    | Return(call: nat)
    | Read(poller: nat)
    | Compare(poller: nat)
    | LockSend(poller: nat)
    | SendOne(poller: nat, channel: nat)
    | UnlockSend(poller: nat)
    | Exit(poller: nat)

  predicate Joins(s: State, channel: nat, pc: Joining) {
    channel in s.joins && s.joins[channel] == pc
  }

  predicate PhaseIs(s: State, poller: nat, phase: Phase) {
    poller in s.pollers && s.pollers[poller].phase == phase
  }

  predicate Enabled(s: State, a: Action) {
    match a
    case Commit => true
    case Receive(channel) => channel in s.subs && s.subs[channel].Some?
    case StartJoin(channel) => channel !in s.joins
    case LockJoin(channel) => s.lock.Free? && Joins(s, channel, WantsJoin)
    case Baseline(channel, _) => Joins(s, channel, Joined) && s.current.None?
    case FinishJoin(channel, poller) =>
      channel in s.joins && poller !in s.pollers
      && ((s.joins[channel].Joined? && s.current.Some?) || s.joins[channel].Baselined?)
    case StartLeave(call, channel) => call !in s.leaves && Joins(s, channel, Subscribed)
    case LockLeave(call) => s.lock.Free? && call in s.leaves && s.leaves[call].WantsLeave?
    case FinishLeave(call) => call in s.leaves && s.leaves[call].HoldsLeave?
    case Cancel(call) => call in s.leaves && s.leaves[call].ToCancel? && s.leaves[call].poller in s.pollers
    case Return(call) => call in s.leaves && s.leaves[call].Awaits? && PhaseIs(s, s.leaves[call].poller, Exited)
    case Read(poller) => PhaseIs(s, poller, Selecting)
    case Compare(poller) => poller in s.pollers && s.pollers[poller].phase.Fetched?
    case LockSend(poller) => s.lock.Free? && poller in s.pollers && s.pollers[poller].phase.ToSend?
    case SendOne(poller, channel) =>
      poller in s.pollers && s.pollers[poller].phase.Sending?
      && channel in s.pollers[poller].phase.remaining && channel in s.subs
    case UnlockSend(poller) =>
      poller in s.pollers && s.pollers[poller].phase.Sending? && s.pollers[poller].phase.remaining == {}
    case Exit(poller) => PhaseIs(s, poller, Selecting) && s.pollers[poller].cancelled
  }

  function SetPhase(s: State, poller: nat, phase: Phase): State
    requires poller in s.pollers
  {
    s.(pollers := s.pollers[poller := s.pollers[poller].(phase := phase)])
  }

  // A send never blocks: a full slot keeps its signal.
  function Offer(slot: Option<nat>, id: nat): Option<nat> {
    if slot.None? then Some(id) else slot
  }

  // unsubscribe under the lock: the channels left, and the poller to stop, if any.
  function Unregister(subs: map<nat, Option<nat>>, current: Option<nat>, channel: nat)
    : (map<nat, Option<nat>>, Option<nat>, Leaving)
  {
    if channel !in subs then (subs, current, Left)
    else
      var rest := subs - {channel};
      if rest != map[] || current.None? then (rest, current, Left)
      else (rest, None, ToCancel(current.value))
  }

  function Do(s: State, a: Action): State {
    if !Enabled(s, a) then s
    else
      match a
      case Commit => s.(log := s.log + 1)
      case Receive(channel) => s.(subs := s.subs[channel := None], mark := s.mark[channel := s.log])
      case StartJoin(channel) => s.(joins := s.joins[channel := WantsJoin])
      case LockJoin(channel) =>
        s.(lock := ByJoin(channel), subs := s.subs[channel := None], joins := s.joins[channel := Joined])
      case Baseline(channel, ok) => s.(joins := s.joins[channel := Baselined(if ok then s.log else 0)])
      case FinishJoin(channel, poller) =>
        var started := if s.joins[channel].Joined? then s
                       else s.(current := Some(poller),
                               pollers := s.pollers[poller := Poller(s.joins[channel].last, Selecting, false)]);
        started.(lock := Free, joins := s.joins[channel := Subscribed], mark := s.mark[channel := s.log])
      case StartLeave(call, channel) => s.(leaves := s.leaves[call := WantsLeave(channel)])
      case LockLeave(call) => s.(lock := ByLeave(call), leaves := s.leaves[call := HoldsLeave(s.leaves[call].channel)])
      case FinishLeave(call) =>
        var (subs, current, next) := Unregister(s.subs, s.current, s.leaves[call].channel);
        s.(subs := subs, current := current, lock := Free, leaves := s.leaves[call := next])
      case Cancel(call) =>
        var poller := s.leaves[call].poller;
        s.(pollers := s.pollers[poller := s.pollers[poller].(cancelled := true)],
           leaves := s.leaves[call := Awaits(poller)])
      case Return(call) => s.(leaves := s.leaves[call := Left])
      case Read(poller) => SetPhase(s, poller, Fetched(s.log))
      case Compare(poller) =>
        var id := s.pollers[poller].phase.id;
        if id == s.pollers[poller].last then SetPhase(s, poller, Selecting)
        else s.(pollers := s.pollers[poller := s.pollers[poller].(last := id, phase := ToSend(id))])
      case LockSend(poller) =>
        SetPhase(s.(lock := BySend(poller)), poller, Sending(s.pollers[poller].phase.id, s.subs.Keys))
      case SendOne(poller, channel) =>
        var phase := s.pollers[poller].phase;
        SetPhase(s.(subs := s.subs[channel := Offer(s.subs[channel], phase.id)]), poller,
                 phase.(remaining := phase.remaining - {channel}))
      case UnlockSend(poller) => SetPhase(s.(lock := Free), poller, Selecting)
      case Exit(poller) => SetPhase(s, poller, Exited)
  }

  function At(start: State, run: seq<Action>, n: nat): State
    requires n <= |run|
  {
    if n == 0 then start else Do(At(start, run, n - 1), run[n - 1])
  }

  /* Structure. */

  // Who holds the mutex, and what holds of it.
  ghost predicate LockHeld(s: State) {
    && (forall c :: c in s.joins && (s.joins[c].Joined? || s.joins[c].Baselined?) <==> s.lock == ByJoin(c))
    && (forall c :: c in s.leaves && s.leaves[c].HoldsLeave? <==> s.lock == ByLeave(c))
    && (forall p :: p in s.pollers && s.pollers[p].phase.Sending? <==> s.lock == BySend(p))
  }

  // A channel is registered from its subscribe's lock to an unsubscribe.
  ghost predicate Registered(s: State) {
    && (forall c :: c in s.subs ==> c in s.joins && !s.joins[c].WantsJoin?)
    && (s.lock.ByJoin? ==> s.lock.channel in s.subs)
    && (forall c :: c in s.joins && s.joins[c].Baselined? ==> s.current.None?)
    && (forall p :: p in s.pollers && s.pollers[p].phase.Sending? ==> s.pollers[p].phase.remaining <= s.subs.Keys)
  }

  // A current poller exists exactly when subscribers exist, except inside the
  // subscribe that is about to start one.
  ghost predicate CurrentMatches(s: State) {
    && (s.current.Some? ==> s.subs != map[])
    && (s.current.None? && s.subs != map[] ==> s.lock.ByJoin? && s.subs.Keys == {s.lock.channel})
  }

  predicate Owns(leaving: Leaving, poller: nat) {
    (leaving.ToCancel? || leaving.Awaits?) && leaving.poller == poller
  }

  // The current poller runs free; every other live one has one unsubscribe that
  // will cancel and await it.
  ghost predicate PollersOwned(s: State) {
    RunsFree(s) && OthersOwned(s) && OwnedOnce(s)
  }

  ghost predicate RunsFree(s: State) {
    && (s.current.Some? ==> s.current.value in s.pollers && !s.pollers[s.current.value].cancelled)
    && (forall p :: p in s.pollers && s.pollers[p].phase.Exited? ==> s.pollers[p].cancelled)
  }

  ghost predicate OthersOwned(s: State) {
    forall p :: p in s.pollers && !s.pollers[p].phase.Exited? && s.current != Some(p) ==>
                  exists c :: c in s.leaves && Owns(s.leaves[c], p)
  }

  ghost predicate OwnedOnce(s: State) {
    && (forall c, p :: c in s.leaves && Owns(s.leaves[c], p) ==>
                         && p in s.pollers && s.current != Some(p)
                         && (s.leaves[c].Awaits? <==> s.pollers[p].cancelled))
    && (forall c, d, p :: c in s.leaves && d in s.leaves && Owns(s.leaves[c], p) && Owns(s.leaves[d], p) ==> c == d)
  }

  ghost predicate Structured(s: State) {
    LockHeld(s) && Registered(s) && CurrentMatches(s) && PollersOwned(s)
  }

  predicate ByClient(a: Action) {
    a.Commit? || a.Receive? || a.StartJoin? || a.LockJoin? || a.Baseline? || a.StartLeave? || a.LockLeave? || a.Return?
  }

  predicate ByPoller(a: Action) {
    a.Read? || a.Compare? || a.LockSend? || a.SendOne? || a.UnlockSend? || a.Exit?
  }

  lemma LockHeldClient(s: State, a: Action)
    requires Structured(s) && ByClient(a)
    ensures LockHeld(Do(s, a))
  {
    hide Registered, CurrentMatches, PollersOwned;
  }

  lemma LockHeldPoller(s: State, a: Action)
    requires Structured(s) && Enabled(s, a) && ByPoller(a)
    ensures LockHeld(Do(s, a))
  {
    hide Do, Structured, LockHeld;
    if a.LockSend? || a.SendOne? || a.UnlockSend? {
      LockHeldSender(s, a);
    } else {
      LockHeldReader(s, a);
    }
  }

  lemma LockHeldSender(s: State, a: Action)
    requires Structured(s) && Enabled(s, a) && (a.LockSend? || a.SendOne? || a.UnlockSend?)
    ensures LockHeld(Do(s, a))
  {
    hide Registered, CurrentMatches, PollersOwned;
  }

  lemma LockHeldReader(s: State, a: Action)
    requires Structured(s) && Enabled(s, a) && (a.Read? || a.Compare? || a.Exit?)
    ensures LockHeld(Do(s, a))
  {
    hide Registered, CurrentMatches, PollersOwned;
  }

  lemma LockHeldHandover(s: State, a: Action)
    requires Structured(s) && !ByClient(a) && !ByPoller(a)
    ensures LockHeld(Do(s, a))
  {
    hide Registered, CurrentMatches, PollersOwned;
  }

  lemma LockHeldStep(s: State, a: Action)
    requires Structured(s)
    ensures LockHeld(Do(s, a))
  {
    hide Do, Structured, LockHeld;
    if !Enabled(s, a) {
      DisabledStays(s, a);
      StructureParts(s);
    } else if ByClient(a) {
      LockHeldClient(s, a);
    } else if ByPoller(a) {
      LockHeldPoller(s, a);
    } else {
      LockHeldHandover(s, a);
    }
  }

  lemma RegisteredClient(s: State, a: Action)
    requires Structured(s) && ByClient(a)
    ensures Registered(Do(s, a))
  {
    hide CurrentMatches, PollersOwned;
  }

  lemma RegisteredPoller(s: State, a: Action)
    requires Structured(s) && ByPoller(a)
    ensures Registered(Do(s, a))
  {
    hide Do, Structured, Registered;
    if !Enabled(s, a) {
      DisabledStays(s, a);
      StructureParts(s);
    } else if a.LockSend? || a.SendOne? {
      RegisteredSender(s, a);
    } else {
      RegisteredReader(s, a);
    }
  }

  lemma RegisteredSender(s: State, a: Action)
    requires Structured(s) && Enabled(s, a) && (a.LockSend? || a.SendOne?)
    ensures Registered(Do(s, a))
  {
    hide CurrentMatches, PollersOwned;
  }

  lemma RegisteredReader(s: State, a: Action)
    requires Structured(s) && Enabled(s, a) && (a.Read? || a.Compare? || a.UnlockSend? || a.Exit?)
    ensures Registered(Do(s, a))
  {
    hide CurrentMatches, PollersOwned, LockHeld;
  }

  lemma RegisteredHandover(s: State, a: Action)
    requires Structured(s) && !ByClient(a) && !ByPoller(a)
    ensures Registered(Do(s, a))
  {
    hide CurrentMatches, PollersOwned;
  }

  lemma RegisteredStep(s: State, a: Action)
    requires Structured(s)
    ensures Registered(Do(s, a))
  {
    if ByClient(a) {
      RegisteredClient(s, a);
    } else if ByPoller(a) {
      RegisteredPoller(s, a);
    } else {
      RegisteredHandover(s, a);
    }
  }

  lemma CurrentStep(s: State, a: Action)
    requires Structured(s)
    ensures CurrentMatches(Do(s, a))
  {
    hide Do, Structured, CurrentMatches;
    if !Enabled(s, a) {
      DisabledStays(s, a);
      StructureParts(s);
    } else if ByClient(a) {
      CurrentClient(s, a);
    } else if ByPoller(a) {
      CurrentPoller(s, a);
    } else {
      CurrentHandover(s, a);
    }
  }

  lemma CurrentClient(s: State, a: Action)
    requires Structured(s) && Enabled(s, a) && ByClient(a)
    ensures CurrentMatches(Do(s, a))
  {
    hide PollersOwned;
    var next := Do(s, a);
    if a.Receive? || a.LockJoin? {
      assert a.channel in next.subs;
      assert s.subs == map[] <==> s.subs.Keys == {};
    }
  }

  lemma CurrentPoller(s: State, a: Action)
    requires Structured(s) && Enabled(s, a) && ByPoller(a)
    ensures CurrentMatches(Do(s, a))
  {
    hide PollersOwned;
    var next := Do(s, a);
    if a.SendOne? {
      assert a.channel in next.subs;
      assert s.subs == map[] <==> s.subs.Keys == {};
    }
  }

  lemma CurrentHandover(s: State, a: Action)
    requires Structured(s) && Enabled(s, a) && !ByClient(a) && !ByPoller(a)
    ensures CurrentMatches(Do(s, a))
  {
    hide PollersOwned;
    var next := Do(s, a);
    if a.FinishLeave? {
      assert next.subs == map[] <==> next.subs.Keys == {};
    }
  }

  // What a step does to the ownership of pollers.
  lemma PollersStep(s: State, a: Action)
    requires Structured(s)
    ensures PollersOwned(Do(s, a))
  {
    hide Do, Structured, PollersOwned, SameOwnership, Enabled;
    if !Enabled(s, a) {
      DisabledStays(s, a);
      StructureParts(s);
    } else if a.FinishLeave? || a.FinishJoin? || a.Cancel? || a.Return? {
      HandoverOwned(s, a);
    } else {
      QuietOwned(s, a);
    }
  }

  lemma DisabledStays(s: State, a: Action)
    requires !Enabled(s, a)
    ensures Do(s, a) == s
  {
  }

  lemma StructureParts(s: State)
    requires Structured(s)
    ensures LockHeld(s) && Registered(s) && CurrentMatches(s) && PollersOwned(s)
  {
  }

  lemma HandoverOwned(s: State, a: Action)
    requires Structured(s) && Enabled(s, a) && (a.FinishLeave? || a.FinishJoin? || a.Cancel? || a.Return?)
    ensures PollersOwned(Do(s, a))
  {
    hide Do, Structured, PollersOwned, Enabled;
    match a {
      case FinishLeave(call) => FinishLeaveOwned(s, call);
      case FinishJoin(channel, poller) => FinishJoinOwned(s, channel, poller);
      case Cancel(call) => CancelOwned(s, call);
      case Return(call) => ReturnOwned(s, call);
    }
  }

  lemma QuietOwned(s: State, a: Action)
    requires Structured(s) && Enabled(s, a) && !(a.FinishLeave? || a.FinishJoin? || a.Cancel? || a.Return?)
    ensures PollersOwned(Do(s, a))
  {
    hide Do, Structured, PollersOwned, SameOwnership, Enabled;
    if ByClient(a) {
      QuietClient(s, a);
    } else {
      QuietPoller(s, a);
    }
    StructureParts(s);
    OwnershipKept(s, Do(s, a));
  }

  // The last unsubscribe takes the current poller over; any other takes nothing.
  lemma FinishLeaveShape(s: State, call: nat)
    requires Structured(s) && Enabled(s, FinishLeave(call))
    ensures
      var next := Do(s, FinishLeave(call));
      && next.pollers == s.pollers
      && next.leaves == s.leaves[call := next.leaves[call]]
      && ((next.current == s.current && next.leaves[call].Left?)
          || (s.current.Some? && next.current.None? && next.leaves[call] == ToCancel(s.current.value)))
  {
  }

  lemma FinishLeaveOwned(s: State, call: nat)
    requires Structured(s) && Enabled(s, FinishLeave(call))
    ensures PollersOwned(Do(s, FinishLeave(call)))
  {
    FinishLeaveShape(s, call);
    HandOver(s, Do(s, FinishLeave(call)), call);
  }

  // One unsubscribe's ownership changes: it takes over the current poller, or none.
  ghost predicate HandsOver(s: State, next: State, call: nat) {
    && next.pollers == s.pollers
    && call in s.leaves && s.leaves[call].HoldsLeave? && next.leaves.Keys == s.leaves.Keys
    && (forall c :: c in s.leaves && c != call ==> next.leaves[c] == s.leaves[c])
    && ((next.current == s.current && next.leaves[call].Left?)
        || (s.current.Some? && next.current.None? && next.leaves[call] == ToCancel(s.current.value)))
  }

  lemma HandOverOwners(s: State, next: State, call: nat)
    requires PollersOwned(s) && HandsOver(s, next, call)
    ensures OthersOwned(next)
  {
    forall p | p in next.pollers && !next.pollers[p].phase.Exited? && next.current != Some(p)
      ensures exists c :: c in next.leaves && Owns(next.leaves[c], p)
    {
      if s.current == Some(p) {
        assert Owns(next.leaves[call], p);
      } else {
        var c :| c in s.leaves && Owns(s.leaves[c], p);
        assert c in next.leaves && Owns(next.leaves[c], p);
      }
    }
  }

  lemma HandOverClaims(s: State, next: State, call: nat, c: nat, p: nat)
    requires PollersOwned(s) && HandsOver(s, next, call) && c in next.leaves && Owns(next.leaves[c], p)
    ensures p in next.pollers && next.current != Some(p) && (next.leaves[c].Awaits? <==> next.pollers[p].cancelled)
    ensures c != call ==> c in s.leaves && Owns(s.leaves[c], p) && s.current != Some(p)
    ensures c == call ==> s.current == Some(p)
  {
  }

  lemma HandOver(s: State, next: State, call: nat)
    requires PollersOwned(s) && HandsOver(s, next, call)
    ensures PollersOwned(next)
  {
    hide OthersOwned;
    HandOverOwners(s, next, call);
    forall c, p | c in next.leaves && Owns(next.leaves[c], p)
      ensures p in next.pollers && next.current != Some(p) && (next.leaves[c].Awaits? <==> next.pollers[p].cancelled)
    {
      HandOverClaims(s, next, call, c, p);
    }
    forall c, d, p | c in next.leaves && d in next.leaves && Owns(next.leaves[c], p) && Owns(next.leaves[d], p)
      ensures c == d
    {
      HandOverClaims(s, next, call, c, p);
      HandOverClaims(s, next, call, d, p);
    }
  }

  // A poller started while there is none is the current one, and nobody's to stop.
  lemma PollerStarts(s: State, next: State, poller: nat, last: nat)
    requires PollersOwned(s) && s.current.None? && poller !in s.pollers
    requires next.pollers == s.pollers[poller := Poller(last, Selecting, false)] && next.current == Some(poller)
    requires next.leaves == s.leaves
    ensures PollersOwned(next)
  {
    forall p | p in next.pollers && !next.pollers[p].phase.Exited? && next.current != Some(p)
      ensures exists c :: c in next.leaves && Owns(next.leaves[c], p)
    {
      var c :| c in s.leaves && Owns(s.leaves[c], p);
    }
  }

  lemma SamePollers(s: State, next: State)
    requires PollersOwned(s) && next.pollers == s.pollers && next.current == s.current && next.leaves == s.leaves
    ensures PollersOwned(next)
  {
  }

  lemma FinishJoinOwned(s: State, channel: nat, poller: nat)
    requires Structured(s) && Enabled(s, FinishJoin(channel, poller))
    ensures PollersOwned(Do(s, FinishJoin(channel, poller)))
  {
    hide CurrentMatches, LockHeld, PollersOwned;
    var next := Do(s, FinishJoin(channel, poller));
    if s.joins[channel].Joined? {
      SamePollers(s, next);
    } else {
      PollerStarts(s, next, poller, s.joins[channel].last);
    }
  }

  lemma CancelOwned(s: State, call: nat)
    requires Structured(s) && Enabled(s, Cancel(call))
    ensures PollersOwned(Do(s, Cancel(call)))
  {
    hide Registered, CurrentMatches, LockHeld;
    var next := Do(s, Cancel(call));
    forall p | p in next.pollers && !next.pollers[p].phase.Exited? && next.current != Some(p)
      ensures exists c :: c in next.leaves && Owns(next.leaves[c], p)
    {
      var c :| c in s.leaves && Owns(s.leaves[c], p);
      assert c in next.leaves && Owns(next.leaves[c], p);
    }
  }

  lemma ReturnOwned(s: State, call: nat)
    requires Structured(s) && Enabled(s, Return(call))
    ensures PollersOwned(Do(s, Return(call)))
  {
    hide Registered, CurrentMatches, LockHeld;
    var next := Do(s, Return(call));
    forall p | p in next.pollers && !next.pollers[p].phase.Exited? && next.current != Some(p)
      ensures exists c :: c in next.leaves && Owns(next.leaves[c], p)
    {
      var c :| c in s.leaves && Owns(s.leaves[c], p);
      assert c in next.leaves && Owns(next.leaves[c], p);
    }
  }

  // A step that hands no poller over: nobody starts, stops being current, or is cancelled.
  ghost predicate SameOwnership(s: State, next: State) {
    && next.current == s.current
    && next.pollers.Keys == s.pollers.Keys
    && (forall p :: p in s.pollers ==>
                      && next.pollers[p].cancelled == s.pollers[p].cancelled
                      && (s.pollers[p].phase.Exited? ==> next.pollers[p].phase.Exited?)
                      && (next.pollers[p].phase.Exited? ==> s.pollers[p].cancelled))
    && s.leaves.Keys <= next.leaves.Keys
    && (forall c :: c in next.leaves && (next.leaves[c].ToCancel? || next.leaves[c].Awaits?) ==>
                      c in s.leaves && next.leaves[c] == s.leaves[c])
    && (forall c :: c in s.leaves && (s.leaves[c].ToCancel? || s.leaves[c].Awaits?) ==> next.leaves[c] == s.leaves[c])
  }

  lemma QuietClient(s: State, a: Action)
    requires Structured(s) && Enabled(s, a) && ByClient(a) && !a.Return?
    ensures SameOwnership(s, Do(s, a))
  {
    hide LockHeld, Registered, CurrentMatches;
    ClientShape(s, a);
  }

  lemma QuietPoller(s: State, a: Action)
    requires Structured(s) && Enabled(s, a) && ByPoller(a)
    ensures SameOwnership(s, Do(s, a))
  {
    hide LockHeld, Registered, CurrentMatches;
    PollerShape(s, a);
  }

  lemma OwnershipKept(s: State, next: State)
    requires PollersOwned(s) && SameOwnership(s, next)
    ensures PollersOwned(next)
  {
    hide OthersOwned;
    OwnersKept(s, next);
  }

  lemma OwnersKept(s: State, next: State)
    requires OthersOwned(s) && SameOwnership(s, next)
    ensures OthersOwned(next)
  {
    forall p | p in next.pollers && !next.pollers[p].phase.Exited? && next.current != Some(p)
      ensures exists c :: c in next.leaves && Owns(next.leaves[c], p)
    {
      var c :| c in s.leaves && Owns(s.leaves[c], p);
      assert c in next.leaves && Owns(next.leaves[c], p);
    }
  }

  // In every reachable state the structure holds.
  lemma {:induction false} StructuredAlways(run: seq<Action>, n: nat)
    requires n <= |run|
    ensures Structured(At(INITIAL, run, n))
  {
    if n > 0 {
      StructuredAlways(run, n - 1);
      var s, a := At(INITIAL, run, n - 1), run[n - 1];
      LockHeldStep(s, a);
      RegisteredStep(s, a);
      CurrentStep(s, a);
      PollersStep(s, a);
    }
  }

  // At every lock release: a current poller exactly when there are subscribers,
  // and every other live poller waits on exactly one unsubscribe.
  lemma PollerExactlyWithSubscribers(run: seq<Action>, n: nat)
    requires n <= |run| && At(INITIAL, run, n).lock.Free?
    ensures
      var s := At(INITIAL, run, n);
      && (s.current.Some? <==> s.subs != map[])
      && forall p :: p in s.pollers && !s.pollers[p].phase.Exited? && s.current != Some(p) ==>
                       exists c :: c in s.leaves && Owns(s.leaves[c], p)
                                   && forall d :: d in s.leaves && Owns(s.leaves[d], p) ==> d == c
  {
    StructuredAlways(run, n);
    var s := At(INITIAL, run, n);
    forall p | p in s.pollers && !s.pollers[p].phase.Exited? && s.current != Some(p)
      ensures exists c :: c in s.leaves && Owns(s.leaves[c], p)
                          && forall d :: d in s.leaves && Owns(s.leaves[d], p) ==> d == c
    {
      var c :| c in s.leaves && Owns(s.leaves[c], p);
      assert forall d :: d in s.leaves && Owns(s.leaves[d], p) ==> d == c;
    }
  }

  ghost predicate CallPending(s: State) {
    || (exists c :: c in s.joins && !s.joins[c].Subscribed?)
    || (exists c :: c in s.leaves && !s.leaves[c].Left?)
  }

  // A step of a goroutine already inside the broker: no new call, event or receive.
  predicate Internal(a: Action) {
    !a.Commit? && !a.Receive? && !a.StartJoin? && !a.StartLeave? && !a.Read?
  }

  lemma FreshPoller(s: State) returns (poller: nat)
    ensures poller !in s.pollers
  {
    poller := Above(s.pollers.Keys);
  }

  lemma {:induction false} Above(used: set<nat>) returns (top: nat)
    ensures forall p :: p in used ==> p < top
  {
    top := 0;
    if used != {} {
      var p :| p in used;
      var rest := Above(used - {p});
      top := if p < rest then rest else p + 1;
      assert forall q :: q in used ==> q == p || q in used - {p};
    }
  }

  // Whoever holds the mutex can move: no goroutine waits while holding it.
  lemma HolderMoves(s: State) returns (a: Action)
    requires Structured(s) && !s.lock.Free?
    ensures Enabled(s, a) && Internal(a)
    ensures a.FinishJoin? || a.Baseline? || a.FinishLeave? || a.SendOne? || a.UnlockSend?
  {
    match s.lock {
      case ByJoin(channel) =>
        if s.joins[channel].Joined? && s.current.None? {
          a := Baseline(channel, true);
        } else {
          var poller := FreshPoller(s);
          a := FinishJoin(channel, poller);
        }
      case ByLeave(call) =>
        a := FinishLeave(call);
      case BySend(poller) =>
        var remaining := s.pollers[poller].phase.remaining;
        if remaining != {} {
          var channel :| channel in remaining;
          a := SendOne(poller, channel);
        } else {
          a := UnlockSend(poller);
        }
    }
  }

  // No deadlock is reachable: while any subscribe or unsubscribe is unfinished,
  // some goroutine inside the broker has a step.
  lemma NeverStuck(run: seq<Action>, n: nat) returns (a: Action)
    requires n <= |run| && CallPending(At(INITIAL, run, n))
    ensures Enabled(At(INITIAL, run, n), a) && Internal(a)
  {
    StructuredAlways(run, n);
    var s := At(INITIAL, run, n);
    if !s.lock.Free? {
      a := HolderMoves(s);
    } else if c :| c in s.joins && !s.joins[c].Subscribed? {
      a := LockJoin(c);
    } else {
      var c :| c in s.leaves && !s.leaves[c].Left?;
      match s.leaves[c] {
        case WantsLeave(_) => a := LockLeave(c);
        case ToCancel(_) => a := Cancel(c);
        case Awaits(poller) =>
          assert Owns(s.leaves[c], poller);
          a := match s.pollers[poller].phase
            case Selecting => Exit(poller)
            case Fetched(_) => Compare(poller)
            case ToSend(_) => LockSend(poller)
            case _ => Return(c);
      }
    }
  }

  // Once the last client has left and every unsubscribe has returned, no poller runs.
  lemma NoPollerOutlives(run: seq<Action>, n: nat, poller: nat)
    requires n <= |run|
    requires
      var s := At(INITIAL, run, n);
      s.lock.Free? && s.subs == map[] && forall c :: c in s.leaves ==> s.leaves[c].Left?
    requires poller in At(INITIAL, run, n).pollers
    ensures At(INITIAL, run, n).pollers[poller].phase.Exited?
  {
    StructuredAlways(run, n);
  }

  /* No lost wake-up. */

  // The poller still owes the channel a signal for what it has seen.
  ghost predicate Owes(p: Poller, channel: nat) {
    p.phase.ToSend? || (p.phase.Sending? && channel in p.phase.remaining)
  }

  ghost predicate SeenIsLogged(s: State) {
    && (forall p :: p in s.pollers ==>
                      && s.pollers[p].last <= s.log
                      && (s.pollers[p].phase.Fetched? ==> s.pollers[p].last <= s.pollers[p].phase.id <= s.log)
                      && (s.pollers[p].phase.ToSend? ==> s.pollers[p].phase.id == s.pollers[p].last)
                      && (s.pollers[p].phase.Sending? ==> s.pollers[p].phase.id == s.pollers[p].last))
    && (forall c :: c in s.joins && s.joins[c].Baselined? ==> s.joins[c].last <= s.log)
    && (forall c :: c in s.joins && s.joins[c].Subscribed? ==> c in s.mark && s.mark[c] <= s.log)
    && (forall c :: c in s.mark ==> c in s.joins)
  }

  // An empty slot means the current poller has seen nothing newer than what the
  // subscriber knows of, or still owes it a signal.
  ghost predicate Woken(s: State) {
    forall c :: c in s.subs && Joins(s, c, Subscribed) && s.current.Some? && s.subs[c].None? ==>
                  && s.current.value in s.pollers && c in s.mark
                  && (s.pollers[s.current.value].last <= s.mark[c] || Owes(s.pollers[s.current.value], c))
  }

  // A client's step leaves the pollers and the choice of current one alone.
  lemma ClientShape(s: State, a: Action)
    requires ByClient(a)
    ensures
      var next := Do(s, a);
      && next.pollers == s.pollers && next.current == s.current && s.log <= next.log
      && (next.joins == s.joins
          || (a.StartJoin? && next.joins == s.joins[a.channel := WantsJoin])
          || (a.LockJoin? && next.joins == s.joins[a.channel := Joined])
          || (a.Baseline? && next.joins == s.joins[a.channel := next.joins[a.channel]]
              && next.joins[a.channel].Baselined? && next.joins[a.channel].last <= s.log))
      && (next.mark == s.mark
          || (a.Receive? && Enabled(s, a) && next.mark == s.mark[a.channel := s.log]))
      && (next.subs == s.subs
          || (a.Receive? && Enabled(s, a) && next.subs == s.subs[a.channel := None]
              && next.mark == s.mark[a.channel := s.log])
          || (a.LockJoin? && next.subs == s.subs[a.channel := None] && next.joins == s.joins[a.channel := Joined]))
  {
  }

  // A poller's step changes that poller, and slots only by filling them.
  lemma PollerShape(s: State, a: Action)
    requires ByPoller(a) && Enabled(s, a)
    ensures
      var next := Do(s, a);
      var p := a.poller;
      && next.log == s.log && next.current == s.current && next.joins == s.joins && next.mark == s.mark
      && next.leaves == s.leaves
      && p in s.pollers && next.pollers == s.pollers[p := next.pollers[p]]
      && next.subs.Keys == s.subs.Keys
      && (forall c :: c in s.subs && next.subs[c].None? ==> s.subs[c].None?)
      && (match a
          case Read(_) => next.pollers[p] == s.pollers[p].(phase := Fetched(s.log))
          case Compare(_) =>
            next.pollers[p] == if s.pollers[p].phase.id == s.pollers[p].last then s.pollers[p].(phase := Selecting)
                               else s.pollers[p].(last := s.pollers[p].phase.id, phase := ToSend(s.pollers[p].phase.id))
          case LockSend(_) => next.pollers[p] == s.pollers[p].(phase := Sending(s.pollers[p].phase.id, s.subs.Keys))
          case SendOne(_, c) =>
            && c in next.subs && next.subs[c].Some?
            && next.pollers[p].phase == Sending(s.pollers[p].phase.id, s.pollers[p].phase.remaining - {c})
            && next.pollers[p] == s.pollers[p].(phase := next.pollers[p].phase)
          case UnlockSend(_) => next.pollers[p] == s.pollers[p].(phase := Selecting)
          case _ => next.pollers[p] == s.pollers[p].(phase := Exited))
  {
  }

  lemma SeenStep(s: State, a: Action)
    requires Structured(s) && SeenIsLogged(s)
    ensures SeenIsLogged(Do(s, a))
  {
    hide PollersOwned, LockHeld, Registered, CurrentMatches;
    if Enabled(s, a) {
      if ByClient(a) {
        ClientShape(s, a);
        SeenClient(s, a);
      } else if ByPoller(a) {
        PollerShape(s, a);
        SeenPoller(s, a);
      }
    }
  }

  lemma SeenClient(s: State, a: Action)
    requires ByClient(a) && Enabled(s, a) && SeenIsLogged(s) && Registered(s)
    ensures SeenIsLogged(Do(s, a))
  {
    ClientShape(s, a);
  }

  lemma SeenPoller(s: State, a: Action)
    requires ByPoller(a) && Enabled(s, a) && SeenIsLogged(s)
    ensures SeenIsLogged(Do(s, a))
  {
    PollerShape(s, a);
  }

  lemma WokenClient(s: State, a: Action)
    requires ByClient(a) && Enabled(s, a) && SeenIsLogged(s) && Woken(s) && Structured(s)
    ensures Woken(Do(s, a))
  {
    hide CurrentMatches;
    ClientShape(s, a);
  }

  lemma WokenPoller(s: State, a: Action)
    requires ByPoller(a) && Enabled(s, a) && SeenIsLogged(s) && Woken(s)
    ensures Woken(Do(s, a))
  {
    PollerShape(s, a);
  }

  lemma WokenFinishJoin(s: State, a: Action)
    requires a.FinishJoin? && Enabled(s, a) && SeenIsLogged(s) && Woken(s) && Structured(s)
    ensures Woken(Do(s, a))
  {
  }

  lemma WokenFinishLeave(s: State, a: Action)
    requires (a.FinishLeave? || a.Cancel?) && Enabled(s, a) && Woken(s) && Structured(s)
    ensures Woken(Do(s, a))
  {
  }

  lemma WokenStep(s: State, a: Action)
    requires Structured(s) && SeenIsLogged(s) && Woken(s)
    ensures Woken(Do(s, a))
  {
    if Enabled(s, a) {
      if ByClient(a) {
        WokenClient(s, a);
      } else if ByPoller(a) {
        WokenPoller(s, a);
      } else if a.FinishJoin? {
        WokenFinishJoin(s, a);
      } else {
        WokenFinishLeave(s, a);
      }
    }
  }

  lemma {:induction false} WokenAlways(run: seq<Action>, n: nat)
    requires n <= |run|
    ensures Structured(At(INITIAL, run, n)) && SeenIsLogged(At(INITIAL, run, n)) && Woken(At(INITIAL, run, n))
  {
    StructuredAlways(run, n);
    if n == 0 {
      return;
    }
    hide Do, Structured, SeenIsLogged, Woken;
    WokenAlways(run, n - 1);
    SeenStep(At(INITIAL, run, n - 1), run[n - 1]);
    WokenStep(At(INITIAL, run, n - 1), run[n - 1]);
  }

  // What a poller read, it keeps: as its last id, or on the way to it.
  ghost predicate HasRead(s: State, poller: nat, id: nat) {
    && poller in s.pollers
    && (s.pollers[poller].last >= id || (s.pollers[poller].phase.Fetched? && s.pollers[poller].phase.id >= id))
  }

  lemma HasReadStep(s: State, a: Action, poller: nat, id: nat)
    requires HasRead(s, poller, id) && SeenIsLogged(s)
    ensures HasRead(Do(s, a), poller, id)
  {
    if ByPoller(a) && Enabled(s, a) {
      PollerShape(s, a);
    }
  }

  lemma LogStep(s: State, a: Action)
    ensures Do(s, a).log >= s.log
  {
  }

  lemma {:induction false} ReadIsKept(run: seq<Action>, from: nat, n: nat, poller: nat)
    requires from < n <= |run| && run[from] == Read(poller) && Enabled(At(INITIAL, run, from), run[from])
    ensures HasRead(At(INITIAL, run, n), poller, At(INITIAL, run, from).log)
  {
    var s := At(INITIAL, run, n - 1);
    if n > from + 1 {
      ReadIsKept(run, from, n - 1, poller);
      WokenAlways(run, n - 1);
      HasReadStep(s, run[n - 1], poller, At(INITIAL, run, from).log);
    } else {
      PollerShape(s, run[n - 1]);
    }
  }

  lemma {:induction false} LogGrows(run: seq<Action>, from: nat, n: nat)
    requires from <= n <= |run|
    ensures At(INITIAL, run, n).log >= At(INITIAL, run, from).log
  {
    if n > from {
      LogGrows(run, from, n - 1);
      LogStep(At(INITIAL, run, n - 1), run[n - 1]);
    }
  }

  ghost predicate Receives(run: seq<Action>, i: nat, channel: nat)
    requires i < |run|
  {
    run[i] == Receive(channel) && Enabled(At(INITIAL, run, i), run[i])
  }

  // A subscriber's mark moves only when it receives.
  lemma MarkStep(s: State, a: Action, channel: nat)
    requires Structured(s) && SeenIsLogged(s) && Joins(s, channel, Subscribed)
    ensures Joins(Do(s, a), channel, Subscribed) && channel in s.mark && channel in Do(s, a).mark
    ensures Do(s, a).mark[channel] == s.mark[channel] || (a == Receive(channel) && Enabled(s, a))
  {
    if Enabled(s, a) {
      if ByClient(a) {
        ClientShape(s, a);
      } else if ByPoller(a) {
        PollerShape(s, a);
      }
    }
  }

  ghost predicate ReceivedBetween(run: seq<Action>, from: nat, n: nat, channel: nat)
    requires n <= |run|
  {
    exists i :: from <= i < n && Receives(run, i, channel)
  }

  lemma {:induction false} MarkMoves(run: seq<Action>, from: nat, n: nat, channel: nat)
    requires from <= n <= |run| && Joins(At(INITIAL, run, from), channel, Subscribed)
    ensures Joins(At(INITIAL, run, n), channel, Subscribed)
    ensures channel in At(INITIAL, run, from).mark && channel in At(INITIAL, run, n).mark
    ensures At(INITIAL, run, n).mark[channel] == At(INITIAL, run, from).mark[channel]
            || ReceivedBetween(run, from, n, channel)
  {
    hide Do, Structured, SeenIsLogged, Woken, Receives;
    WokenAlways(run, from);
    MarkKnown(At(INITIAL, run, from), channel);
    if n > from {
      MarkMoves(run, from, n - 1, channel);
      WokenAlways(run, n - 1);
      var s, a := At(INITIAL, run, n - 1), run[n - 1];
      MarkStep(s, a, channel);
      if a == Receive(channel) && Enabled(s, a) {
        ReceivedHere(run, from, n, channel);
      } else if ReceivedBetween(run, from, n - 1, channel) {
        var i :| from <= i < n - 1 && Receives(run, i, channel);
        assert from <= i < n && Receives(run, i, channel);
      }
    }
  }

  lemma MarkKnown(s: State, channel: nat)
    requires SeenIsLogged(s) && Joins(s, channel, Subscribed)
    ensures channel in s.mark
  {
  }

  lemma ReceivedHere(run: seq<Action>, from: nat, n: nat, channel: nat)
    requires from < n <= |run| && run[n - 1] == Receive(channel) && Enabled(At(INITIAL, run, n - 1), run[n - 1])
    ensures ReceivedBetween(run, from, n, channel)
  {
    assert Receives(run, n - 1, channel);
  }

  lemma CommitPrecedesRead(run: seq<Action>, commit: nat, read: nat, channel: nat)
    requires commit < read <= |run| && run[commit] == Commit && Joins(At(INITIAL, run, commit), channel, Subscribed)
    ensures
      var s := At(INITIAL, run, commit + 1);
      Joins(s, channel, Subscribed) && channel in s.mark && s.mark[channel] < At(INITIAL, run, read).log
  {
    WokenAlways(run, commit);
    LogGrows(run, commit + 1, read);
    CommitCounts(At(INITIAL, run, commit), channel);
  }

  lemma KnownOnceRead(run: seq<Action>, read: nat, n: nat, channel: nat, poller: nat)
    requires read < n <= |run| && run[read] == Read(poller) && Enabled(At(INITIAL, run, read), run[read])
    requires channel in At(INITIAL, run, n).subs && Joins(At(INITIAL, run, n), channel, Subscribed)
    requires At(INITIAL, run, n).current == Some(poller) && PhaseIs(At(INITIAL, run, n), poller, Selecting)
    ensures
      var s := At(INITIAL, run, n);
      s.subs[channel].Some? || (channel in s.mark && s.mark[channel] >= At(INITIAL, run, read).log)
  {
    WokenAlways(run, n);
    ReadIsKept(run, read, n, poller);
    IdleMeansKnown(At(INITIAL, run, n), channel, poller, At(INITIAL, run, read).log);
  }

  // No lost wake-up: an event committed once a client is subscribed leaves it a
  // buffered signal, or one received since, when the current poller is back in
  // its select after a successful read of the log.
  lemma NoLostWakeUp(run: seq<Action>, commit: nat, read: nat, n: nat, channel: nat, poller: nat)
    requires commit < read < n <= |run|
    requires run[commit] == Commit && Joins(At(INITIAL, run, commit), channel, Subscribed)
    requires channel in At(INITIAL, run, n).subs
    requires run[read] == Read(poller) && Enabled(At(INITIAL, run, read), run[read])
    requires At(INITIAL, run, n).current == Some(poller) && PhaseIs(At(INITIAL, run, n), poller, Selecting)
    ensures At(INITIAL, run, n).subs[channel].Some? || ReceivedBetween(run, commit + 1, n, channel)
  {
    CommitPrecedesRead(run, commit, read, channel);
    MarkMoves(run, commit + 1, n, channel);
    KnownOnceRead(run, read, n, channel, poller);
  }

  lemma CommitCounts(s: State, channel: nat)
    requires SeenIsLogged(s) && Joins(s, channel, Subscribed)
    ensures
      var next := Do(s, Commit);
      Joins(next, channel, Subscribed) && channel in next.mark && next.mark[channel] < next.log
  {
  }

  lemma IdleMeansKnown(s: State, channel: nat, poller: nat, id: nat)
    requires Woken(s) && channel in s.subs && Joins(s, channel, Subscribed)
    requires s.current == Some(poller) && PhaseIs(s, poller, Selecting) && HasRead(s, poller, id)
    ensures s.subs[channel].Some? || (channel in s.mark && s.mark[channel] >= id)
  {
  }

  /* No spurious wake-up. */

  // The poller has seen the whole log and is not on the way to a send.
  predicate UpToDate(s: State, poller: nat) {
    && poller in s.pollers && s.pollers[poller].last == s.log
    && (s.pollers[poller].phase in {Selecting, Exited} || s.pollers[poller].phase == Fetched(s.log))
  }

  lemma UpToDateStep(s: State, a: Action, poller: nat)
    requires UpToDate(s, poller) && !a.Commit?
    ensures UpToDate(Do(s, a), poller)
  {
    if !Enabled(s, a) {
      DisabledStays(s, a);
    } else if ByPoller(a) {
      PollerShape(s, a);
      hide Do, Enabled;
    } else {
      OthersKeepUp(s, a, poller);
    }
  }

  lemma OthersKeepUp(s: State, a: Action, poller: nat)
    requires UpToDate(s, poller) && !a.Commit? && !ByPoller(a)
    ensures UpToDate(Do(s, a), poller)
  {
  }

  // Between two events a poller that has seen the first wakes nobody.
  lemma {:induction false} NoEventNoSignal(run: seq<Action>, from: nat, n: nat, poller: nat)
    requires from <= n <= |run| && UpToDate(At(INITIAL, run, from), poller)
    requires forall i :: from <= i < n ==> !run[i].Commit?
    ensures UpToDate(At(INITIAL, run, n), poller)
  {
    if from < n {
      NoEventNoSignal(run, from, n - 1, poller);
      UpToDateStep(At(INITIAL, run, n - 1), run[n - 1], poller);
    }
  }

  lemma BaselineStep(s: State, a: Action, channel: nat)
    requires channel in s.joins && (s.joins[channel] == Baselined(s.log) || s.joins[channel] == Subscribed)
    requires !a.Commit?
    ensures Do(s, a).log == s.log && channel in Do(s, a).joins
    ensures Do(s, a).joins[channel] == Baselined(s.log) || Do(s, a).joins[channel] == Subscribed
  {
  }

  lemma {:induction false} BaselineKept(run: seq<Action>, read: nat, n: nat, channel: nat)
    requires read < n <= |run|
    requires run[read] == Baseline(channel, true) && Enabled(At(INITIAL, run, read), run[read])
    requires forall i :: read <= i < n ==> !run[i].Commit?
    ensures
      var s := At(INITIAL, run, n);
      channel in s.joins && (s.joins[channel] == Baselined(s.log) || s.joins[channel] == Subscribed)
  {
    if n > read + 1 {
      BaselineKept(run, read, n - 1, channel);
      BaselineStep(At(INITIAL, run, n - 1), run[n - 1], channel);
    }
  }

  // A poller is started up to date: as long as no event follows the read its
  // subscribe seeds it with, it wakes nobody.
  lemma StartsUpToDate(run: seq<Action>, read: nat, start: nat, n: nat, channel: nat, poller: nat)
    requires read < start < n <= |run|
    requires run[read] == Baseline(channel, true) && Enabled(At(INITIAL, run, read), run[read])
    requires run[start] == FinishJoin(channel, poller) && Enabled(At(INITIAL, run, start), run[start])
    requires forall i :: read <= i < n ==> !run[i].Commit?
    ensures UpToDate(At(INITIAL, run, n), poller)
  {
    BaselineKept(run, read, start, channel);
    assert UpToDate(At(INITIAL, run, start + 1), poller);
    NoEventNoSignal(run, start + 1, n, poller);
  }

  // What is buffered, or on its way to a buffer, is the id of a committed event.
  ghost predicate SignalsAreEvents(s: State) {
    && (forall c :: c in s.subs && s.subs[c].Some? ==> 1 <= s.subs[c].value <= s.log)
    && (forall p :: p in s.pollers && (s.pollers[p].phase.ToSend? || s.pollers[p].phase.Sending?) ==>
                      1 <= s.pollers[p].phase.id <= s.log)
  }

  lemma SignalsReader(s: State, a: Action)
    requires ByPoller(a) && !a.SendOne? && Enabled(s, a) && SeenIsLogged(s) && SignalsAreEvents(s)
    ensures SignalsAreEvents(Do(s, a))
  {
    PollerShape(s, a);
    PollerKeepsSlots(s, a);
    hide Do, Enabled;
  }

  lemma PollerKeepsSlots(s: State, a: Action)
    requires ByPoller(a) && !a.SendOne? && Enabled(s, a)
    ensures Do(s, a).subs == s.subs
  {
  }

  lemma SignalsSender(s: State, a: Action)
    requires a.SendOne? && Enabled(s, a) && SignalsAreEvents(s)
    ensures SignalsAreEvents(Do(s, a))
  {
  }

  lemma SignalsClient(s: State, a: Action)
    requires ByClient(a) && SignalsAreEvents(s)
    ensures SignalsAreEvents(Do(s, a))
  {
  }

  lemma SignalsHandover(s: State, a: Action)
    requires !ByClient(a) && !ByPoller(a) && SignalsAreEvents(s)
    ensures SignalsAreEvents(Do(s, a))
  {
  }

  lemma SignalsStep(s: State, a: Action)
    requires SeenIsLogged(s) && SignalsAreEvents(s)
    ensures SignalsAreEvents(Do(s, a))
  {
    hide Do, SeenIsLogged, SignalsAreEvents, Enabled;
    if ByClient(a) {
      SignalsClient(s, a);
    } else if !ByPoller(a) {
      SignalsHandover(s, a);
    } else if !Enabled(s, a) {
      DisabledStays(s, a);
    } else if a.SendOne? {
      SignalsSender(s, a);
    } else {
      SignalsReader(s, a);
    }
  }

  lemma {:induction false} SignalsAreEventsAlways(run: seq<Action>, n: nat)
    requires n <= |run|
    ensures SignalsAreEvents(At(INITIAL, run, n))
  {
    hide Do, Structured, SeenIsLogged, Woken;
    if n > 0 {
      SignalsAreEventsAlways(run, n - 1);
      WokenAlways(run, n - 1);
      SignalsStep(At(INITIAL, run, n - 1), run[n - 1]);
    }
  }

  // A buffered signal stays as it is until it is received or the channel leaves.
  lemma SlotStep(s: State, a: Action, channel: nat)
    requires Structured(s) && channel in s.subs && s.subs[channel].Some? && channel in Do(s, a).subs
    requires !(a == Receive(channel))
    ensures Do(s, a).subs[channel] == s.subs[channel]
  {
    hide LockHeld, CurrentMatches, PollersOwned;
  }

  lemma StaysAway(s: State, a: Action, channel: nat)
    requires Structured(s) && channel in s.joins && !s.joins[channel].WantsJoin? && channel !in s.subs
    ensures channel in Do(s, a).joins && !Do(s, a).joins[channel].WantsJoin? && channel !in Do(s, a).subs
  {
    hide LockHeld, CurrentMatches, PollersOwned;
  }

  lemma {:induction false} GoneForGood(run: seq<Action>, from: nat, n: nat, channel: nat)
    requires from <= n <= |run|
    requires var s := At(INITIAL, run, from); channel in s.joins && !s.joins[channel].WantsJoin? && channel !in s.subs
    ensures var s := At(INITIAL, run, n); channel in s.joins && !s.joins[channel].WantsJoin? && channel !in s.subs
  {
    if from < n {
      GoneForGood(run, from, n - 1, channel);
      StructuredAlways(run, n - 1);
      StaysAway(At(INITIAL, run, n - 1), run[n - 1], channel);
    }
  }

  lemma {:induction false} SignalStays(run: seq<Action>, from: nat, n: nat, channel: nat)
    requires from <= n <= |run|
    requires channel in At(INITIAL, run, from).subs && At(INITIAL, run, from).subs[channel].Some?
    requires channel in At(INITIAL, run, n).subs
    requires forall i :: from <= i < n ==> run[i] != Receive(channel)
    ensures At(INITIAL, run, n).subs[channel] == At(INITIAL, run, from).subs[channel]
  {
    hide Do, Structured;
    if from < n {
      StructuredAlways(run, n - 1);
      RegisteredJoined(run, from, channel);
      if channel !in At(INITIAL, run, n - 1).subs {
        WasJoined(run, from, n - 1, channel);
        GoneForGood(run, n - 1, n, channel);
      }
      SignalStays(run, from, n - 1, channel);
      SlotStep(At(INITIAL, run, n - 1), run[n - 1], channel);
    }
  }

  lemma RegisteredJoined(run: seq<Action>, n: nat, channel: nat)
    requires n <= |run| && channel in At(INITIAL, run, n).subs
    ensures channel in At(INITIAL, run, n).joins && !At(INITIAL, run, n).joins[channel].WantsJoin?
  {
    StructuredAlways(run, n);
  }

  lemma JoinedStep(s: State, a: Action, channel: nat)
    requires channel in s.joins && !s.joins[channel].WantsJoin?
    ensures channel in Do(s, a).joins && !Do(s, a).joins[channel].WantsJoin?
  {
  }

  lemma {:induction false} WasJoined(run: seq<Action>, from: nat, n: nat, channel: nat)
    requires from <= n <= |run|
    requires channel in At(INITIAL, run, from).joins && !At(INITIAL, run, from).joins[channel].WantsJoin?
    ensures channel in At(INITIAL, run, n).joins && !At(INITIAL, run, n).joins[channel].WantsJoin?
  {
    if from < n {
      WasJoined(run, from, n - 1, channel);
      JoinedStep(At(INITIAL, run, n - 1), run[n - 1], channel);
    }
  }

  // A subscribe, run through under the lock: what the steps of the system do to the
  // broker's fields is what the method does.
  lemma SubscribeSection(s: State, channel: nat, ok: bool, poller: nat)
    requires s.lock.Free? && Joins(s, channel, WantsJoin) && poller !in s.pollers
    ensures
      var held := Do(s, LockJoin(channel));
      var read := if s.current.None? then Do(held, Baseline(channel, ok)) else held;
      var after := Do(read, FinishJoin(channel, poller));
      && after.subs == s.subs[channel := None] && after.lock.Free? && Joins(after, channel, Subscribed)
      && after.current == (if s.current.None? then Some(poller) else s.current)
      && after.pollers == if s.current.None? then s.pollers[poller := Poller(if ok then s.log else 0, Selecting, false)]
                          else s.pollers
  {
  }

  /* The critical sections, as the broker's fields change under the lock. */

  class EventBroker {
    var subs: map<nat, Option<nat>>
    var current: Option<nat>

    constructor ()
      ensures subs == map[] && current == None
    {
      subs := map[];
      current := None;
    }

    // The first subscriber's section also starts a poller, seeded with the
    // latest id; a failed read seeds it with no id.
    method Subscribe(channel: nat, latest: Option<nat>, newPoller: nat) returns (started: Option<Poller>)
      modifies this
      ensures subs == old(subs)[channel := None]
      ensures current == if old(current).None? then Some(newPoller) else old(current)
      ensures started.Some? <==> old(current).None?
      ensures started.Some? ==> started.value == Poller(if latest.Some? then latest.value else 0, Selecting, false)
    {
      subs := subs[channel := None];
      started := None;
      if current.None? {
        var last := 0;
        if latest.Some? {
          last := latest.value;
        }
        current := Some(newPoller);
        started := Some(Poller(last, Selecting, false));
      }
    }

    method Unsubscribe(channel: nat) returns (next: Leaving)
      modifies this
      ensures (subs, current, next) == Unregister(old(subs), old(current), channel)
    {
      if channel !in subs {
        return Left;
      }
      subs := subs - {channel};
      if |subs| > 0 || current.None? {
        assert subs != map[] || current.None?;
        return Left;
      }
      var poller := current.value;
      current := None;
      next := ToCancel(poller);
    }

    method Broadcast(id: nat)
      modifies this`subs
      ensures subs == map c | c in old(subs) :: Offer(old(subs)[c], id)
    {
      var remaining := subs.Keys;
      while remaining != {}
        invariant remaining <= subs.Keys == old(subs).Keys
        invariant forall c :: c in subs ==> subs[c] == if c in remaining then old(subs)[c] else Offer(old(subs)[c], id)
        decreases remaining
      {
        var channel :| channel in remaining;
        if subs[channel].None? {
          subs := subs[channel := Some(id)];
        }
        remaining := remaining - {channel};
      }
    }
  }
}
