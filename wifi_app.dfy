/** The Wi-Fi task (wifi_app.c): the boot decision, the message switch of
    `wifi_task`, the event rules of `wifi_event_handler`, and the channel
    choice of the station set-up. Radio and storage calls are recorded as
    actions; the two queues are FIFO sequences. */
module WifiApp {
  import opened CsiTypes
  import ConfigDecoder

  /** wifi_app_message_id, with the configuration pointer that only
      MSG_CHANGE_TO_CSI_COLLECTION carries. */
  datatype WifiMsg =
    | StaConnectedMsg
    | StaDisconnectedMsg
    | StartApMode
    | ResetWifi
    | ChangeToCsiCollection(config: Config)
    | StartCsiAppAsReceiver
    | StartCsiAppAsSender
    | AskCsiToStop

  /** The radio events the handler distinguishes; anything else is OtherEvent. */
  datatype WifiEvent = StaConnected | ApStaConnected | StaDisconnected | StaStart | OtherEvent

  /** wifi_second_chan_t, as far as the station set-up uses it. */
  datatype SecondChannel = SecondChanNone | SecondChanAbove

  /** Driver, server, storage and CSI-task calls the Wi-Fi task makes, in order. */
  datatype WifiAction =
    | WifiInit
    | ConfigProvisioningAp
    | StartHttpServer
    | WifiDeinit
    | DisablePowerSave
    | ConfigCollectionAp(channel: Int32, bandwidth: Int32)
    | ConfigSta(channel: Int32, bandwidth: Int32, second: SecondChannel)
    | Connect
    | StartCsiApp(config: Config)
    | StopCsiApp
    | ClearStoredConfig
    | Restart

  /** The task's statics `current_mode`, `is_wifi_initialized_as_ap` and
      `app_configuration`, the configuration slot in flash, the task's
      queue, and the trace of its calls. */
  datatype WifiTask = WifiTask(
    currentMode: int,
    apInitialized: bool,
    config: Option<Config>,
    stored: Option<Config>,
    queue: seq<WifiMsg>,
    actions: seq<WifiAction>)

  /** `wifi_config_sta`: 20 MHz needs no secondary channel, anything else
      takes the one above. */
  function SecondaryChannel(bandwidth: Int32): (s: SecondChannel)
    ensures s == SecondChanNone <==> bandwidth == WIFI_BW_HT20
  {
    if bandwidth == WIFI_BW_HT20 then SecondChanNone else SecondChanAbove
  }

  /** The boot message is defined: no stored record, or one for a known role. */
  predicate BootDefined(stored: Option<Config>)
  {
    stored.Some? ==> stored.value.opMode == CSI_RECV || stored.value.opMode == CSI_SNDR
  }

  /** The first message `wifi_task` posts to itself. */
  function BootMessage(stored: Option<Config>): WifiMsg
    requires BootDefined(stored)
  {
    if stored.None? then StartApMode else ChangeToCsiCollection(stored.value)
  }

  /** The state once `wifi_task` has loaded the stored record and posted its
      first message (after power-on or a restart). */
  function Booted(stored: Option<Config>): WifiTask
    requires BootDefined(stored)
  {
    WifiTask(0, false, stored, stored, [BootMessage(stored)], [])
  }

  /** Starting the CSI app hands it `app_configuration`, so there must be one. */
  predicate CanHandle(t: WifiTask, msg: WifiMsg)
  {
    (msg.StartCsiAppAsReceiver? || msg.StartCsiAppAsSender?) ==> t.config.Some?
  }

  /** The radio set-up for a new record: the collection access point for a
      receiver, and for any other role the station on the record's channel
      followed by a connect. */
  function RoleSetup(c: Config): seq<WifiAction>
  {
    if c.opMode == CSI_RECV then [ConfigCollectionAp(c.channel, c.bandwidth)]
    else [ConfigSta(c.channel, c.bandwidth, SecondaryChannel(c.bandwidth)), Connect]
  }

  /** One iteration of `wifi_task`'s message loop (the message already taken
      from the queue). */
  function Handle(t: WifiTask, msg: WifiMsg): WifiTask
    requires CanHandle(t, msg)
  {
    match msg
    case StartApMode =>
      t.(apInitialized := true, currentMode := 0,
         actions := t.actions + [WifiInit, ConfigProvisioningAp, StartHttpServer])
    case StartCsiAppAsReceiver =>
      t.(currentMode := 1, actions := t.actions + [StartCsiApp(t.config.value)])
    case StartCsiAppAsSender =>
      t.(currentMode := 1, actions := t.actions + [StartCsiApp(t.config.value)])
    case ChangeToCsiCollection(c) =>
      var teardown := if t.apInitialized then [WifiDeinit] else [];
      t.(config := Some(c), apInitialized := false,
         actions := t.actions + teardown + [WifiInit, DisablePowerSave] + RoleSetup(c),
         queue := t.queue + (if c.opMode == CSI_RECV then [StartCsiAppAsReceiver] else []))
    case AskCsiToStop =>
      t.(actions := t.actions + [StopCsiApp])
    case ResetWifi =>
      t.(stored := None, actions := t.actions + [ClearStoredConfig, Restart])
    case StaConnectedMsg => t
    case StaDisconnectedMsg => t
  }

  /** `wifi_event_handler`: what one radio event posts and calls. */
  function OnEvent(t: WifiTask, e: WifiEvent): WifiTask
  {
    match e
    case StaConnected => t.(queue := t.queue + [StartCsiAppAsSender])
    case StaDisconnected =>
      t.(queue := t.queue + (if t.currentMode == 1 then [AskCsiToStop] else []),
         actions := t.actions + [Connect])
    case ApStaConnected => t
    case StaStart => t
    case OtherEvent => t
  }

  // ---------------------------------------------------------------------
  // Properties of single steps

  /** At boot, no stored record means provisioning; a stored record for a
      known role is replayed as a reconfiguration carrying that record. */
  lemma BootChoice(stored: Option<Config>)
    requires BootDefined(stored)
    ensures Booted(stored).queue == [BootMessage(stored)]
    ensures BootMessage(stored) == StartApMode <==> stored.None?
    ensures stored.Some? ==> BootMessage(stored) == ChangeToCsiCollection(stored.value)
    ensures Booted(stored).currentMode == 0 && !Booted(stored).apInitialized
  {
  }

  /** Provisioning brings up the access point and the web server and sets the
      mode back to 0, touching nothing else. */
  lemma StartApProvisions(t: WifiTask)
    ensures var r := Handle(t, StartApMode);
            && r.currentMode == 0 && r.apInitialized
            && r.actions == t.actions + [WifiInit, ConfigProvisioningAp, StartHttpServer]
            && r.config == t.config && r.stored == t.stored && r.queue == t.queue
  {
  }

  /** Starting the CSI app, in either role, passes it the installed record
      and sets the mode to 1. */
  lemma StartCsiSetsModeOne(t: WifiTask, msg: WifiMsg)
    requires msg == StartCsiAppAsReceiver || msg == StartCsiAppAsSender
    requires t.config.Some?
    ensures var r := Handle(t, msg);
            && r.currentMode == 1
            && r.actions == t.actions + [StartCsiApp(t.config.value)]
            && r.apInitialized == t.apInitialized && r.config == t.config && r.queue == t.queue
  {
  }

  /** A reconfiguration installs the record, tears the radio down only if the
      access point was up, and always leaves the access-point flag false. A
      receiver record then posts exactly START_CSI_APP_AS_RECEIVER; any other
      record configures the station and connects, posting nothing. */
  lemma ChangeReconfigures(t: WifiTask, c: Config)
    ensures var r := Handle(t, ChangeToCsiCollection(c));
            && r.config == Some(c) && !r.apInitialized
            && r.currentMode == t.currentMode && r.stored == t.stored
            && (WifiDeinit in r.actions[|t.actions|..] <==> t.apInitialized)
            && (c.opMode == CSI_RECV ==> r.queue == t.queue + [StartCsiAppAsReceiver])
            && (c.opMode != CSI_RECV ==>
                  (r.queue == t.queue &&
                   r.actions[|r.actions| - 2..] == [ConfigSta(c.channel, c.bandwidth, SecondaryChannel(c.bandwidth)), Connect]))
  {
    var r := Handle(t, ChangeToCsiCollection(c));
    var teardown := if t.apInitialized then [WifiDeinit] else [];
    assert r.actions == t.actions + (teardown + [WifiInit, DisablePowerSave] + RoleSetup(c));
    assert r.actions[|t.actions|..] == teardown + [WifiInit, DisablePowerSave] + RoleSetup(c);
    if t.apInitialized {
      assert r.actions[|t.actions|..][0] == WifiDeinit;
    }
  }

  /** A STOP request is passed on to the CSI task once. */
  lemma AskStopStopsCsi(t: WifiTask)
    ensures Handle(t, AskCsiToStop) == t.(actions := t.actions + [StopCsiApp])
  {
  }

  /** A reset clears the stored record and restarts, so the next boot provisions. */
  lemma ResetReprovisions(t: WifiTask)
    ensures var r := Handle(t, ResetWifi);
            && r.stored == None && r.actions == t.actions + [ClearStoredConfig, Restart]
            && Booted(r.stored).queue == [StartApMode]
  {
  }

  /** Only START_AP_MODE brings the mode to 0 from anything else. */
  lemma OnlyStartApZeroesMode(t: WifiTask, msg: WifiMsg)
    requires CanHandle(t, msg)
    requires t.currentMode != 0 && Handle(t, msg).currentMode == 0
    ensures msg == StartApMode
  {
  }

  /** The station-connected event posts START_CSI_APP_AS_SENDER; a
      disconnection posts ASK_CSI_TO_STOP exactly when the mode is 1 and
      always reconnects. No event changes the task's statics. */
  lemma EventRules(t: WifiTask, e: WifiEvent)
    ensures var r := OnEvent(t, e);
            && r.currentMode == t.currentMode && r.apInitialized == t.apInitialized
            && r.config == t.config && r.stored == t.stored
            && (e == StaConnected ==> r.queue == t.queue + [StartCsiAppAsSender] && r.actions == t.actions)
            && (e == StaDisconnected ==>
                  (r.actions == t.actions + [Connect] &&
                   (AskCsiToStop in r.queue[|t.queue|..] <==> t.currentMode == 1)))
            && (e != StaConnected && e != StaDisconnected ==> r == t)
  {
    if e == StaDisconnected {
      var r := OnEvent(t, e);
      assert r.queue[|t.queue|..] == (if t.currentMode == 1 then [AskCsiToStop] else []);
    }
  }

  /** The mode is 0 or 1 and no step takes it elsewhere. */
  lemma ModeStaysBinary(t: WifiTask, msg: WifiMsg, e: WifiEvent)
    requires t.currentMode == 0 || t.currentMode == 1
    requires CanHandle(t, msg)
    ensures Handle(t, msg).currentMode == 0 || Handle(t, msg).currentMode == 1
    ensures OnEvent(t, e).currentMode == t.currentMode
  {
  }

  // ---------------------------------------------------------------------
  // Runs of messages

  /** Every message of the series can be handled in the state the messages
      before it lead to. */
  predicate Runnable(t: WifiTask, msgs: seq<WifiMsg>)
    decreases |msgs|
  {
    msgs == [] || (CanHandle(t, msgs[0]) && Runnable(Handle(t, msgs[0]), msgs[1..]))
  }

  /** Processing a series of messages in order. */
  function Run(t: WifiTask, msgs: seq<WifiMsg>): WifiTask
    requires Runnable(t, msgs)
    decreases |msgs|
  {
    if msgs == [] then t
    else Run(Handle(t, msgs[0]), msgs[1..])
  }

  /** Once a record is installed it stays installed, so every series of
      messages can be run; before that, only START_CSI_APP is refused. */
  lemma {:induction false} ConfiguredRunsAll(t: WifiTask, msgs: seq<WifiMsg>)
    requires t.config.Some?
    ensures Runnable(t, msgs)
    decreases |msgs|
  {
    if msgs != [] {
      ConfiguredRunsAll(Handle(t, msgs[0]), msgs[1..]);
    }
  }

  /** Some message of the series starts the CSI app. */
  predicate StartsCsi(msgs: seq<WifiMsg>)
  {
    exists i :: 0 <= i < |msgs| && (msgs[i].StartCsiAppAsReceiver? || msgs[i].StartCsiAppAsSender?)
  }

  /** Without START_AP_MODE the mode never returns to 0: it ends as 1 if the
      CSI app was started on the way, and as it began otherwise. */
  lemma {:induction false} ModeWithoutStartAp(t: WifiTask, msgs: seq<WifiMsg>)
    requires Runnable(t, msgs)
    requires forall i :: 0 <= i < |msgs| ==> msgs[i] != StartApMode
    ensures Run(t, msgs).currentMode == if StartsCsi(msgs) then 1 else t.currentMode
    decreases |msgs|
  {
    if msgs != [] {
      var t1 := Handle(t, msgs[0]);
      var rest := msgs[1..];
      assert forall i :: 0 <= i < |rest| ==> rest[i] == msgs[i + 1];
      ModeWithoutStartAp(t1, rest);
      if msgs[0].StartCsiAppAsReceiver? || msgs[0].StartCsiAppAsSender? {
        assert StartsCsi(msgs);
        if StartsCsi(rest) {
          assert Run(t, msgs).currentMode == 1;
        }
      } else {
        assert t1.currentMode == t.currentMode;
        if StartsCsi(rest) {
          var i :| 0 <= i < |rest| && (rest[i].StartCsiAppAsReceiver? || rest[i].StartCsiAppAsSender?);
          assert msgs[i + 1] == rest[i];
        }
        if StartsCsi(msgs) {
          var i :| 0 <= i < |msgs| && (msgs[i].StartCsiAppAsReceiver? || msgs[i].StartCsiAppAsSender?);
          assert i > 0 && rest[i - 1] == msgs[i];
        }
      }
    }
  }

  /** A run ending with START_AP_MODE is back in mode 0 with the access point up. */
  lemma {:induction false} RunEndingInStartAp(t: WifiTask, msgs: seq<WifiMsg>)
    requires Runnable(t, msgs)
    ensures Runnable(t, msgs + [StartApMode])
    ensures Run(t, msgs + [StartApMode]).currentMode == 0
    ensures Run(t, msgs + [StartApMode]).apInitialized
    decreases |msgs|
  {
    if msgs != [] {
      assert (msgs + [StartApMode])[0] == msgs[0];
      assert (msgs + [StartApMode])[1..] == msgs[1..] + [StartApMode];
      RunEndingInStartAp(Handle(t, msgs[0]), msgs[1..]);
    } else {
      assert msgs + [StartApMode] == [StartApMode];
      assert Runnable(Handle(t, StartApMode), []);
    }
  }

  /** From a first boot (nothing stored) the runs start at provisioning: the
      queued START_AP_MODE, then a receiver record's reconfiguration and the
      START_CSI_APP_AS_RECEIVER it posts, end in mode 1: the provisioning calls,
      the teardown of the access point, the collection set-up and the CSI app
      started with that record. A station-connected start before any record is refused. */
  lemma FirstBootProvisionsThenCollects(c: Config)
    requires c.opMode == CSI_RECV
    ensures var msgs := [StartApMode, ChangeToCsiCollection(c), StartCsiAppAsReceiver];
            && Booted(None).queue == [StartApMode]
            && Runnable(Booted(None), msgs)
            && Run(Booted(None), msgs).currentMode == 1
            && Run(Booted(None), msgs).actions ==
                 [WifiInit, ConfigProvisioningAp, StartHttpServer, WifiDeinit, WifiInit, DisablePowerSave,
                  ConfigCollectionAp(c.channel, c.bandwidth), StartCsiApp(c)]
            && !Runnable(Booted(None), [StartApMode, StartCsiAppAsSender])
  {
    var msgs := [StartApMode, ChangeToCsiCollection(c), StartCsiAppAsReceiver];
    var t1 := Handle(Booted(None), StartApMode);
    var t2 := Handle(t1, ChangeToCsiCollection(c));
    var t3 := Handle(t2, StartCsiAppAsReceiver);
    assert msgs[1..] == [ChangeToCsiCollection(c), StartCsiAppAsReceiver];
    assert msgs[1..][1..] == [StartCsiAppAsReceiver];
    assert Runnable(t3, []);
    assert Run(t2, [StartCsiAppAsReceiver]) == Run(t3, []) == t3;
    assert Run(t1, msgs[1..]) == t3;
    assert Run(Booted(None), msgs) == t3;
    assert [StartApMode, StartCsiAppAsSender][1..] == [StartCsiAppAsSender];
  }

  /** A receiver request the server accepts is saved and posted as a
      reconfiguration; the Wi-Fi task then brings up the collection access
      point and starts the CSI app as receiver with the decoded record, and a
      later boot replays the saved record the same way. */
  lemma ReceiverRequestStartsCollection(h: ConfigDecoder.Headers, t: WifiTask)
    requires ConfigDecoder.Complete(h) && ConfigDecoder.IsReceiver(h)
    ensures var c := ConfigDecoder.Decode(h).value;
            var t1 := Handle(t, ChangeToCsiCollection(c));
            && ConfigDecoder.Effects(ConfigDecoder.Decode(h)) ==
                 [ConfigDecoder.SaveConfiguration(c), ConfigDecoder.SendChangeToCsiCollection(c), ConfigDecoder.StopServer]
            && t1.queue == t.queue + [StartCsiAppAsReceiver]
            && Handle(t1, StartCsiAppAsReceiver).actions == t1.actions + [StartCsiApp(c)]
            && Handle(t1, StartCsiAppAsReceiver).currentMode == 1
            && BootDefined(Some(c)) && BootMessage(Some(c)) == ChangeToCsiCollection(c)
  {
    ConfigDecoder.ReceiverRecord(h);
  }

  // ---------------------------------------------------------------------
  // The task and its event handler over shared statics

  class WifiApplication {
    var currentMode: int
    var apInitialized: bool
    var config: Option<Config>
    var stored: Option<Config>
    var queue: seq<WifiMsg>
    var actions: seq<WifiAction>

    function State(): WifiTask
      reads this
    {
      WifiTask(currentMode, apInitialized, config, stored, queue, actions)
    }

    /** `wifi_app_start` and the start of `wifi_task`: the statics at their
        power-on values, the stored record loaded, and the first message posted. */
    constructor (slot: Option<Config>)
      requires BootDefined(slot)
      ensures State() == Booted(slot)
    {
      currentMode := 0;
      apInitialized := false;
      stored := slot;
      config := slot;
      queue := [];
      actions := [];
      var first;
      if slot.Some? {
        first := ChangeToCsiCollection(slot.value);
      } else {
        first := StartApMode;
      }
      queue := queue + [first];
    }

    /** `wifi_config_sta`'s channel call. */
    method ConfigureStation(c: Config)
      modifies this
      ensures actions == old(actions) + [ConfigSta(c.channel, c.bandwidth, SecondaryChannel(c.bandwidth))]
      ensures currentMode == old(currentMode) && apInitialized == old(apInitialized)
      ensures config == old(config) && stored == old(stored) && queue == old(queue)
    {
      var second;
      if c.bandwidth == WIFI_BW_HT20 {
        second := SecondChanNone;
      } else {
        second := SecondChanAbove;
      }
      actions := actions + [ConfigSta(c.channel, c.bandwidth, second)];
    }

    /** The MSG_CHANGE_TO_CSI_COLLECTION case: install the record, leave
        provisioning if it is up, and bring the radio up in the record's role. */
    method Reconfigure(c: Config)
      modifies this
      ensures State() == Handle(old(State()), ChangeToCsiCollection(c))
    {
      config := Some(c);
      if apInitialized {
        actions := actions + [WifiDeinit];
        apInitialized := false;
      }
      actions := actions + [WifiInit, DisablePowerSave];
      if c.opMode == CSI_RECV {
        actions := actions + [ConfigCollectionAp(c.channel, c.bandwidth)];
        queue := queue + [StartCsiAppAsReceiver];
      } else {
        ConfigureStation(c);
        actions := actions + [Connect];
      }
    }

    /** One case of `wifi_task`'s switch. */
    method HandleMessage(msg: WifiMsg)
      requires CanHandle(State(), msg)
      modifies this
      ensures State() == Handle(old(State()), msg)
    {
      match msg {
        case StartApMode =>
          actions := actions + [WifiInit, ConfigProvisioningAp];
          apInitialized := true;
          actions := actions + [StartHttpServer];
          currentMode := 0;
        case StartCsiAppAsReceiver =>
          actions := actions + [StartCsiApp(config.value)];
          currentMode := 1;
        case StartCsiAppAsSender =>
          actions := actions + [StartCsiApp(config.value)];
          currentMode := 1;
        case ChangeToCsiCollection(c) =>
          Reconfigure(c);
        case AskCsiToStop =>
          actions := actions + [StopCsiApp];
        case ResetWifi =>
          stored := None;
          actions := actions + [ClearStoredConfig, Restart];
        case StaConnectedMsg =>
        case StaDisconnectedMsg =>
      }
    }

    /** Take the message at the head of the queue and handle it. */
    method ProcessNext()
      requires queue != [] && CanHandle(State(), queue[0])
      modifies this
      ensures State() == Handle(old(State()).(queue := old(queue)[1..]), old(queue)[0])
    {
      var msg := queue[0];
      queue := queue[1..];
      HandleMessage(msg);
    }

    /** `wifi_event_handler` for one event. */
    method HandleEvent(e: WifiEvent)
      modifies this
      ensures State() == OnEvent(old(State()), e)
    {
      match e {
        case StaConnected =>
          queue := queue + [StartCsiAppAsSender];
        case StaDisconnected =>
          if currentMode == 1 {
            queue := queue + [AskCsiToStop];
          }
          actions := actions + [Connect];
        case ApStaConnected =>
        case StaStart =>
        case OtherEvent =>
      }
    }
  }
}
