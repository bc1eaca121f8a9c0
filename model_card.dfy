/** The deployment-status watcher of one model card.

    The card keeps three pieces of state: the status text it shows, the handle of
    the polling interval it owns (or none), and a per-model "copied" flag. Each
    event (the status check when the effect runs, an interval tick, a click on the
    deploy/withdraw button, a copy of the model id, the end of its acknowledgement
    delay, a re-render with new props, unmounting) runs to completion as one step.

    Responses of the backend and of the clipboard are parameters of the events.
    The browser's side is explicit: the intervals that are running (with the model
    their callback polls), the next handle it hands out, the copy resets it has
    scheduled, and the log of every outside call the card makes. */
module ModelCard {
  import opened Wrappers
  import opened ModelCardView

  /** An interval or timeout handle as handed out by the browser. */
  type TimerId = nat

  /** The props the card is rendered with. */
  datatype ModelProps = ModelProps(
    id: int,
    name: string,
    description: string,
    createdAt: string,
    isDeployed: bool,
    endpointName: string)

  /** How a GET of the endpoint status settles: the reported `endpoint_status`,
      or a rejection (network failure or non-2xx response). */
  datatype StatusReply = Reported(status: string) | QueryFailed

  /** How a deploy or withdraw POST settles. */
  datatype CommandReply = Accepted | CommandRejected

  /** The calls the card makes outside its own state, in the order it makes them. */
  datatype Effect =
    | GetEndpointStatus(endpointName: string)
    | PostDeploy(modelId: int)
    | PostWithdraw(modelId: int)
    | SetInterval(timer: TimerId)
    | ClearInterval(timer: TimerId)
    | FetchModels
    | WriteClipboard(modelId: int)
    | ScheduleCopyReset(modelId: int)

  /** The card's state together with the browser state it touches. */
  datatype Card = Card(
    model: ModelProps,
    modelStatus: string,
    pollInterval: Option<TimerId>,
    copyStatus: map<int, bool>,
    intervals: map<TimerId, ModelProps>,
    nextTimer: TimerId,
    pendingResets: multiset<int>,
    effects: seq<Effect>)

  /** The events that drive a mounted card. */
  datatype Event =
    | Tick(reply: StatusReply)
    | Toggle(command: CommandReply)
    | Copy(modelId: int, written: bool)
    | CopyTimeout(modelId: int)
    | Rerender(props: ModelProps, reply: StatusReply)
    | Unmount

  /** No stray interval: the only interval still running is the one the card
      holds, and every handle in use was handed out before `nextTimer`. */
  ghost predicate WellFormed(c: Card)
  {
    && (match c.pollInterval
        case None => c.intervals == map[]
        case Some(t) => c.intervals.Keys == {t})
    && forall t | t in c.intervals :: t < c.nextTimer
  }

  /** How many times the card asked its parent to re-fetch the model list. */
  function Refreshes(effects: seq<Effect>): nat
  {
    multiset(effects)[FetchModels]
  }

  /** A status reply after which polling stops: a settled status or a failure. */
  predicate Settles(reply: StatusReply)
  {
    !(reply.Reported? && IsTransient(reply.status))
  }

  // ----- the transitions, one function per event -----

  /** The card right after its first render: empty status, no interval, no flags. */
  function Rendered(props: ModelProps): Card
  {
    Card(props, "", None, map[], map[], 0, multiset{}, [])
  }

  /** Stop polling: clear the held interval, if any, and forget its handle. */
  function AfterStopPolling(c: Card): Card
  {
    match c.pollInterval
    case None => c
    case Some(t) =>
      c.(pollInterval := None,
         intervals := c.intervals - {t},
         effects := c.effects + [ClearInterval(t)])
  }

  /** Start polling: a new interval under a fresh handle, whose callback polls
      the current model; the card keeps the handle. */
  function AfterStartPolling(c: Card): Card
  {
    var t := c.nextTimer;
    c.(pollInterval := Some(t),
       intervals := c.intervals[t := c.model],
       nextTimer := t + 1,
       effects := c.effects + [SetInterval(t)])
  }

  /** checkInitialStatus: nothing without an endpoint name; otherwise one status
      query, whose status is stored and starts polling when it is transient. */
  function AfterInitialCheck(c: Card, reply: StatusReply): Card
  {
    if c.model.endpointName == "" then c
    else
      var asked := c.(effects := c.effects + [GetEndpointStatus(c.model.endpointName)]);
      match reply
      case Reported(status) =>
        var stored := asked.(modelStatus := status);
        if IsTransient(status) then AfterStartPolling(stored) else stored
      case QueryFailed =>
        asked.(modelStatus := "Inactive")
  }

  /** The card once mounted: first render, then the effect's status check. */
  function Mounted(props: ModelProps, reply: StatusReply): Card
  {
    AfterInitialCheck(Rendered(props), reply)
  }

  /** pollStatus(polled): one status query for the polled model. */
  function AfterPoll(c: Card, polled: ModelProps, reply: StatusReply): Card
  {
    var asked := c.(effects := c.effects + [GetEndpointStatus(polled.endpointName)]);
    match reply
    case Reported(status) =>
      var stored := asked.(modelStatus := status);
      if IsTransient(status) then stored
      else
        var stopped := AfterStopPolling(stored);
        stopped.(effects := stopped.effects + [FetchModels])
    case QueryFailed =>
      var stopped := AfterStopPolling(asked.(modelStatus := "Inactive"));
      stopped.(effects := stopped.effects + [FetchModels])
  }

  /** The interval the card holds fires; with no interval running nothing fires. */
  function AfterTick(c: Card, reply: StatusReply): Card
  {
    match c.pollInterval
    case None => c
    case Some(t) => if t in c.intervals then AfterPoll(c, c.intervals[t], reply) else c
  }

  /** toggleModelStatus: stop polling, post deploy (not deployed) or withdraw
      (deployed), and start a new interval only once the command resolved. */
  function AfterToggle(c: Card, command: CommandReply): Card
  {
    var stopped := AfterStopPolling(c);
    var posted := stopped.(effects := stopped.effects +
      [if !c.model.isDeployed then PostDeploy(c.model.id) else PostWithdraw(c.model.id)]);
    if command == Accepted then AfterStartPolling(posted) else posted
  }

  /** copyModelId: after a successful clipboard write the flag of that id is set
      and its reset scheduled; a failed write changes nothing but the log. */
  function AfterCopy(c: Card, modelId: int, written: bool): Card
  {
    var tried := c.(effects := c.effects + [WriteClipboard(modelId)]);
    if written then
      tried.(copyStatus := c.copyStatus[modelId := true],
             pendingResets := c.pendingResets + multiset{modelId},
             effects := tried.effects + [ScheduleCopyReset(modelId)])
    else tried
  }

  /** One scheduled reset of `modelId` fires; with none scheduled nothing fires. */
  function AfterCopyTimeout(c: Card, modelId: int): Card
  {
    if modelId in c.pendingResets then
      c.(copyStatus := c.copyStatus[modelId := false],
         pendingResets := c.pendingResets - multiset{modelId})
    else c
  }

  /** A re-render with new props: the effect re-runs (cleanup, then a new status
      check) only when the endpoint name changed. */
  function AfterRerender(c: Card, props: ModelProps, reply: StatusReply): Card
  {
    if props.endpointName == c.model.endpointName then c.(model := props)
    else AfterInitialCheck(AfterStopPolling(c).(model := props), reply)
  }

  function Step(c: Card, e: Event): Card
  {
    match e
    case Tick(reply) => AfterTick(c, reply)
    case Toggle(command) => AfterToggle(c, command)
    case Copy(modelId, written) => AfterCopy(c, modelId, written)
    case CopyTimeout(modelId) => AfterCopyTimeout(c, modelId)
    case Rerender(props, reply) => AfterRerender(c, props, reply)
    case Unmount => AfterStopPolling(c)
  }

  function Run(c: Card, events: seq<Event>): Card
    decreases |events|
  {
    if events == [] then c else Run(Step(c, events[0]), events[1..])
  }

  /** A tick that fires and sees a settled status or a failure. */
  predicate ObservesSettled(c: Card, e: Event)
  {
    e.Tick? && c.pollInterval.Some? && c.pollInterval.value in c.intervals && Settles(e.reply)
  }

  /** The number of such ticks along a run. */
  function SettledObservations(c: Card, events: seq<Event>): nat
    decreases |events|
  {
    if events == [] then 0
    else
      (if ObservesSettled(c, events[0]) then 1 else 0)
      + SettledObservations(Step(c, events[0]), events[1..])
  }

  // ----- the card as the component holds it -----

  class Component {
    var model: ModelProps
    var modelStatus: string
    /** The interval handle the card keeps across renders (its ref). */
    var pollInterval: Option<TimerId>
    var copyStatus: map<int, bool>
    /** The browser's side: running intervals with the model their callback polls,
        the next handle, the scheduled copy resets, and the calls made so far. */
    var intervals: map<TimerId, ModelProps>
    var nextTimer: TimerId
    var pendingResets: multiset<int>
    var effects: seq<Effect>

    function State(): Card
      reads this
    {
      Card(model, modelStatus, pollInterval, copyStatus, intervals, nextTimer, pendingResets, effects)
    }

    ghost predicate Valid()
      reads this
    {
      WellFormed(State())
    }

    /** Mounting: the first render, then the effect runs checkInitialStatus. */
    constructor (props: ModelProps, reply: StatusReply)
      ensures State() == Mounted(props, reply) && Valid()
    {
      model := props;
      modelStatus := "";
      pollInterval := None;
      copyStatus := map[];
      intervals := map[];
      nextTimer := 0;
      pendingResets := multiset{};
      effects := [];
      new;
      CheckInitialStatus(reply);
      MountedWellFormed(props, reply);
    }

    method StopPolling()
      modifies this
      ensures State() == AfterStopPolling(old(State()))
      ensures pollInterval == None
    {
      if pollInterval.Some? {
        var t := pollInterval.value;
        intervals := intervals - {t};
        effects := effects + [ClearInterval(t)];
        pollInterval := None;
      }
    }

    method StartPolling()
      modifies this
      ensures State() == AfterStartPolling(old(State()))
    {
      var t := nextTimer;
      nextTimer := nextTimer + 1;
      intervals := intervals[t := model];
      effects := effects + [SetInterval(t)];
      pollInterval := Some(t);
    }

    method CheckInitialStatus(reply: StatusReply)
      modifies this
      ensures State() == AfterInitialCheck(old(State()), reply)
    {
      if model.endpointName == "" {
        return;
      }
      effects := effects + [GetEndpointStatus(model.endpointName)];
      match reply {
        case Reported(status) =>
          modelStatus := status;
          if IsTransient(status) {
            StartPolling();
          }
        case QueryFailed =>
          modelStatus := "Inactive";
      }
    }

    method PollStatus(polled: ModelProps, reply: StatusReply)
      modifies this
      ensures State() == AfterPoll(old(State()), polled, reply)
    {
      effects := effects + [GetEndpointStatus(polled.endpointName)];
      match reply {
        case Reported(status) =>
          modelStatus := status;
          if !IsTransient(status) {
            StopPolling();
            effects := effects + [FetchModels];
          }
        case QueryFailed =>
          modelStatus := "Inactive";
          StopPolling();
          effects := effects + [FetchModels];
      }
    }

    /** The interval the card holds fires and its query settles with `reply`. */
    method IntervalFires(reply: StatusReply)
      requires Valid()
      modifies this
      ensures State() == Step(old(State()), Tick(reply)) && Valid()
    {
      ghost var before := State();
      if pollInterval.Some? && pollInterval.value in intervals {
        PollStatus(intervals[pollInterval.value], reply);
      }
      StepWellFormed(before, Tick(reply));
    }

    method ToggleModelStatus(command: CommandReply)
      requires Valid()
      modifies this
      ensures State() == Step(old(State()), Toggle(command)) && Valid()
    {
      ghost var before := State();
      StopPolling();
      if !model.isDeployed {
        effects := effects + [PostDeploy(model.id)];
      } else {
        effects := effects + [PostWithdraw(model.id)];
      }
      if command == Accepted {
        StartPolling();
      }
      StepWellFormed(before, Toggle(command));
    }

    method CopyModelId(modelId: int, written: bool)
      requires Valid()
      modifies this
      ensures State() == Step(old(State()), Copy(modelId, written)) && Valid()
    {
      effects := effects + [WriteClipboard(modelId)];
      if written {
        copyStatus := copyStatus[modelId := true];
        pendingResets := pendingResets + multiset{modelId};
        effects := effects + [ScheduleCopyReset(modelId)];
      }
    }

    /** The timeout scheduled by a successful copy of `modelId` fires. */
    method CopyResetFires(modelId: int)
      requires Valid()
      modifies this
      ensures State() == Step(old(State()), CopyTimeout(modelId)) && Valid()
    {
      if modelId in pendingResets {
        copyStatus := copyStatus[modelId := false];
        pendingResets := pendingResets - multiset{modelId};
      }
    }

    /** A re-render with new props; the effect depends on the endpoint name only. */
    method Rerender(props: ModelProps, reply: StatusReply)
      requires Valid()
      modifies this
      ensures State() == Step(old(State()), Event.Rerender(props, reply)) && Valid()
    {
      ghost var before := State();
      if props.endpointName == model.endpointName {
        model := props;
      } else {
        StopPolling();
        model := props;
        CheckInitialStatus(reply);
      }
      StepWellFormed(before, Event.Rerender(props, reply));
    }

    /** The effect's cleanup when the card unmounts. */
    method Unmount()
      requires Valid()
      modifies this
      ensures State() == Step(old(State()), Event.Unmount) && Valid()
      ensures pollInterval == None && intervals == map[]
    {
      ghost var before := State();
      StopPolling();
      StepWellFormed(before, Event.Unmount);
    }
  }

  // ----- what the watcher guarantees -----

  lemma MountedWellFormed(props: ModelProps, reply: StatusReply)
    ensures WellFormed(Mounted(props, reply))
  {
  }

  /** Every event keeps the card free of stray intervals. */
  lemma StepWellFormed(c: Card, e: Event)
    requires WellFormed(c)
    ensures WellFormed(Step(c, e))
  {
  }

  /** Every reachable card holds at most one running interval, and it is the one in the ref. */
  lemma {:induction false} RunWellFormed(c: Card, events: seq<Event>)
    requires WellFormed(c)
    ensures WellFormed(Run(c, events))
    ensures |Run(c, events).intervals| <= 1
    decreases |events|
  {
    if events != [] {
      StepWellFormed(c, events[0]);
      RunWellFormed(Step(c, events[0]), events[1..]);
    } else {
      AtMostOneInterval(c);
    }
  }

  lemma AtMostOneInterval(c: Card)
    requires WellFormed(c)
    ensures |c.intervals| <= 1
  {
  }

  /** Without an endpoint name the check makes no request and starts no
      interval; the badge then reads "Inactive" in the neutral colour. */
  lemma MountWithoutEndpoint(props: ModelProps, reply: StatusReply)
    requires props.endpointName == ""
    ensures Mounted(props, reply).modelStatus == ""
    ensures Mounted(props, reply).pollInterval == None
    ensures Mounted(props, reply).effects == []
    ensures DisplayedStatus(Mounted(props, reply).modelStatus) == "Inactive"
    ensures LabelColor(Mounted(props, reply).modelStatus) == NeutralLabel
  {
  }

  /** The status check with an endpoint name, from a card without an interval
      (on mount, or after the cleanup that precedes a re-run). */
  lemma InitialCheckOutcome(c: Card, reply: StatusReply)
    requires WellFormed(c) && c.pollInterval == None && c.model.endpointName != ""
    ensures var d := AfterInitialCheck(c, reply);
      var polls := reply.Reported? && IsTransient(reply.status);
      && d.effects == c.effects + [GetEndpointStatus(c.model.endpointName)]
                      + (if polls then [SetInterval(c.nextTimer)] else [])
      && Refreshes(d.effects) == Refreshes(c.effects)
      && d.modelStatus == (if reply.Reported? then reply.status else "Inactive")
      && (polls ==> d.pollInterval == Some(c.nextTimer) && d.intervals == map[c.nextTimer := c.model])
      && (!polls ==> d.pollInterval == None && d.intervals == map[])
  {
    var asked := [GetEndpointStatus(c.model.endpointName)];
    var added := asked + (if reply.Reported? && IsTransient(reply.status) then [SetInterval(c.nextTimer)] else []);
    assert FetchModels !in added;
    RefreshesAppend(c.effects, added);
  }

  /** A tick while polling: the reported status is always stored; a transient
      one keeps the interval and fetches nothing, a settled one or a failure
      clears the interval, nulls the handle and fetches the models exactly once.
      The one query asks about the model the interval captured. */
  lemma TickOutcome(c: Card, reply: StatusReply)
    requires WellFormed(c) && c.pollInterval.Some?
    ensures var d := AfterTick(c, reply);
      var t := c.pollInterval.value;
      && t in c.intervals
      && d.effects == c.effects + [GetEndpointStatus(c.intervals[t].endpointName)]
                      + (if Settles(reply) then [ClearInterval(t), FetchModels] else [])
      && d.modelStatus == (if reply.Reported? then reply.status else "Inactive")
      && (Settles(reply) ==>
            && d.pollInterval == None && d.intervals == map[]
            && Refreshes(d.effects) == Refreshes(c.effects) + 1)
      && (!Settles(reply) ==>
            && d.pollInterval == c.pollInterval && d.intervals == c.intervals
            && Refreshes(d.effects) == Refreshes(c.effects))
  {
  }

  /** Once a tick has seen a settled status or a failure, no further tick fires. */
  lemma NoTickAfterSettled(c: Card, reply: StatusReply, next: StatusReply)
    requires WellFormed(c) && c.pollInterval.Some? && Settles(reply)
    ensures AfterTick(AfterTick(c, reply), next) == AfterTick(c, reply)
  {
  }

  /** Toggle, in order: the old interval is cleared, then the command goes to
      deploy/ exactly when the model is not deployed (withdraw/ otherwise), and
      only a resolved command starts a new interval. Nothing is re-fetched. */
  lemma ToggleEffects(c: Card, command: CommandReply)
    ensures var cleared := if c.pollInterval.Some? then [ClearInterval(c.pollInterval.value)] else [];
      var post := if !c.model.isDeployed then PostDeploy(c.model.id) else PostWithdraw(c.model.id);
      AfterToggle(c, command).effects == c.effects + cleared + [post]
        + (if command == Accepted then [SetInterval(c.nextTimer)] else [])
    ensures Refreshes(AfterToggle(c, command).effects) == Refreshes(c.effects)
  {
    var cleared := if c.pollInterval.Some? then [ClearInterval(c.pollInterval.value)] else [];
    var post := if !c.model.isDeployed then PostDeploy(c.model.id) else PostWithdraw(c.model.id);
    var started := if command == Accepted then [SetInterval(c.nextTimer)] else [];
    var added := cleared + [post] + started;
    var stopped := AfterStopPolling(c);
    assert stopped.effects == c.effects + cleared;
    var posted := stopped.(effects := stopped.effects + [post]);
    assert AfterToggle(c, command) == if command == Accepted then AfterStartPolling(posted) else posted;
    assert AfterToggle(c, command).effects == posted.effects + started;
    assert AfterToggle(c, command).effects == c.effects + added;
    assert FetchModels !in added;
    RefreshesAppend(c.effects, added);
  }

  /** Appending calls that include no re-fetch leaves the re-fetch count alone. */
  lemma RefreshesAppend(before: seq<Effect>, added: seq<Effect>)
    requires FetchModels !in added
    ensures Refreshes(before + added) == Refreshes(before)
  {
  }

  /** Toggle leaves exactly one fresh interval, polling the clicked model, when
      the command resolved, and none when it was rejected. */
  lemma ToggleInterval(c: Card, command: CommandReply)
    requires WellFormed(c)
    ensures command == Accepted ==>
      && AfterToggle(c, command).pollInterval == Some(c.nextTimer)
      && c.nextTimer !in c.intervals
      && AfterToggle(c, command).intervals == map[c.nextTimer := c.model]
    ensures command == CommandRejected ==>
      AfterToggle(c, command).pollInterval == None && AfterToggle(c, command).intervals == map[]
  {
  }

  /** Every cancel path (settled tick, failed tick, toggle start, unmount) leaves
      the handle null and no interval running. */
  lemma CancelPathsLeaveNoHandle(c: Card, reply: StatusReply)
    requires WellFormed(c)
    ensures AfterStopPolling(c).pollInterval == None && AfterStopPolling(c).intervals == map[]
    ensures Step(c, Unmount).pollInterval == None && Step(c, Unmount).intervals == map[]
    ensures Settles(reply) ==>
      AfterTick(c, reply).pollInterval == None && AfterTick(c, reply).intervals == map[]
  {
  }

  /** Copy flags are per key: a successful copy sets only its own id, a failed
      one changes no flag, and a reset clears only its own id. */
  lemma CopyFlagsPerKey(c: Card, modelId: int, written: bool, other: int)
    requires other != modelId
    ensures written ==> AfterCopy(c, modelId, written).copyStatus == c.copyStatus[modelId := true]
    ensures !written ==> AfterCopy(c, modelId, written).copyStatus == c.copyStatus
    ensures AfterCopyTimeout(c, modelId).copyStatus ==
      if modelId in c.pendingResets then c.copyStatus[modelId := false] else c.copyStatus
    ensures (other in AfterCopy(c, modelId, written).copyStatus <==> other in c.copyStatus)
    ensures other in c.copyStatus ==>
      && AfterCopy(c, modelId, written).copyStatus[other] == c.copyStatus[other]
      && AfterCopyTimeout(c, modelId).copyStatus[other] == c.copyStatus[other]
  {
  }

  /** A flag changes only through a copy or a reset of its own id, over any run. */
  lemma {:induction false} FlagUntouchedByOtherIds(c: Card, events: seq<Event>, id: int)
    requires forall i | 0 <= i < |events| ::
      !(events[i].Copy? && events[i].modelId == id) && !(events[i].CopyTimeout? && events[i].modelId == id)
    ensures (id in Run(c, events).copyStatus <==> id in c.copyStatus)
    ensures id in c.copyStatus ==> Run(c, events).copyStatus[id] == c.copyStatus[id]
    decreases |events|
  {
    if events != [] {
      FlagUntouchedByOtherIds(Step(c, events[0]), events[1..], id);
    }
  }

  /** The models are re-fetched exactly once per tick that sees a settled
      status or a failure, and on no other event. */
  lemma {:induction false} RefreshesMatchSettledTicks(c: Card, events: seq<Event>)
    requires WellFormed(c)
    ensures Refreshes(Run(c, events).effects) == Refreshes(c.effects) + SettledObservations(c, events)
    decreases |events|
  {
    if events != [] {
      var e := events[0];
      StepRefreshes(c, e);
      StepWellFormed(c, e);
      RefreshesMatchSettledTicks(Step(c, e), events[1..]);
    }
  }

  lemma StepRefreshes(c: Card, e: Event)
    requires WellFormed(c)
    ensures Refreshes(Step(c, e).effects) == Refreshes(c.effects) + (if ObservesSettled(c, e) then 1 else 0)
  {
    match e {
      case Tick(reply) =>
        if c.pollInterval.Some? { TickOutcome(c, reply); }
      case Toggle(command) =>
        ToggleEffects(c, command);
      case Copy(modelId, written) =>
        RefreshesAppend(c.effects, [WriteClipboard(modelId)]);
        if written {
          RefreshesAppend(c.effects + [WriteClipboard(modelId)], [ScheduleCopyReset(modelId)]);
        }
      case CopyTimeout(_) =>
      case Rerender(props, reply) =>
        RerenderRefreshes(c, props, reply);
      case Unmount =>
        if c.pollInterval.Some? {
          RefreshesAppend(c.effects, [ClearInterval(c.pollInterval.value)]);
        }
    }
  }

  /** A re-render never asks for a re-fetch: the cleanup only clears, and the
      status check only queries and may start polling. */
  lemma RerenderRefreshes(c: Card, props: ModelProps, reply: StatusReply)
    requires WellFormed(c)
    ensures Refreshes(AfterRerender(c, props, reply).effects) == Refreshes(c.effects)
  {
    if props.endpointName != c.model.endpointName {
      var stopped := AfterStopPolling(c).(model := props);
      if c.pollInterval.Some? {
        RefreshesAppend(c.effects, [ClearInterval(c.pollInterval.value)]);
      }
      if props.endpointName != "" {
        InitialCheckOutcome(stopped, reply);
      }
    }
  }

  /** The copy acknowledgement is not per click: when the same id is copied
      twice, the first copy's reset already clears the flag while the second
      copy's reset is still pending. */
  lemma EarlierResetClearsRecopy(c: Card, modelId: int)
    requires c.pendingResets[modelId] == 0
    ensures var d := Run(c, [Copy(modelId, true), Copy(modelId, true), CopyTimeout(modelId)]);
      modelId in d.copyStatus && d.copyStatus[modelId] == false && d.pendingResets[modelId] == 1
  {
    var e1 := AfterCopy(c, modelId, true);
    var e2 := AfterCopy(e1, modelId, true);
    assert Run(c, [Copy(modelId, true), Copy(modelId, true), CopyTimeout(modelId)])
        == Run(e1, [Copy(modelId, true), CopyTimeout(modelId)]);
    assert Run(e1, [Copy(modelId, true), CopyTimeout(modelId)]) == Run(e2, [CopyTimeout(modelId)]);
  }
}
