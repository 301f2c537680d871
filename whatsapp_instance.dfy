/**
 * The WhatsApp instance panel: it polls the gateway's instance list, keeps the
 * record of the instance named "agente", classifies its connection status for
 * display, and runs the connect, disconnect and delete commands.
 *
 * Every network call is an explicit parameter: a list response (HTTP status and
 * parsed body) or a thrown error. Timers are left to the caller, who is told by
 * a FollowUp value when the component would poll again.
 */
module WhatsAppInstance {
  import opened Optional

  /** The only instance the panel looks at. */
  const InstanceName: string := "agente"

  /** One record of the gateway's instance list. The connection status is kept as
      the raw string the gateway sent, since nothing checks it on arrival. */
  datatype Instance = Instance(
    id: string,
    name: string,
    connectionStatus: string,
    profileName: Option<string>,
    ownerJid: Option<string>)

  /** Answer to the instance-list request: a response with its HTTP status and
      the parsed list, or an error thrown by the network or by body parsing. */
  datatype ListResponse = ListResponse(status: int, instances: seq<Instance>) | ListThrown

  /** Answer to a command request; its body is never read. */
  datatype CommandResponse = CommandResponse(status: int) | CommandThrown

  /** `response.ok` of the Fetch Standard: the status lies in 200..299, that
      is, its status class (the hundreds digit) is 2. */
  predicate IsOk(status: int): (ok: bool)
    ensures ok <==> status / 100 == 2
  {
    200 <= status <= 299
  }

  /** The status list is used only when the request neither threw nor came
      back with a status outside the 2xx class; both failures take the error
      path. */
  predicate ListSucceeded(r: ListResponse): (s: bool)
    ensures r.ListThrown? ==> !s
    ensures r.ListResponse? ==> (s <==> r.status / 100 == 2)
  {
    r.ListResponse? && IsOk(r.status)
  }

  predicate CommandSucceeded(r: CommandResponse) {
    r.CommandResponse? && IsOk(r.status)
  }

  /** A command counts as done only when its request neither threw nor came
      back with a status outside the 2xx class. */
  lemma CommandSucceededIff2xx(r: CommandResponse)
    ensures r.CommandThrown? ==> !CommandSucceeded(r)
    ensures !r.CommandThrown? ==> (CommandSucceeded(r) <==> r.status / 100 == 2)
  {
  }

  datatype Command = Connect | Disconnect | Delete

  /** The `actionLoading` field: no command, or the tag of the one in flight. */
  datatype ActionLoading = Idle | Busy(command: Command)

  /** What the component does after a settled command: nothing, poll at once,
      or poll after a delay in milliseconds. */
  datatype FollowUp = NoPoll | PollNow | PollAfter(delayMs: nat)

  /** The toast an event raises, if any. */
  datatype Notice = NoNotice | InfoNotice | ErrorNotice

  // ---------------------------------------------------------------------------
  // Finding the instance in the polled list

  /** Index of the first record whose name is exactly `name`. */
  function FirstNamed(data: seq<Instance>, name: string): (r: Option<nat>)
    ensures r.Some? ==> r.value < |data| && data[r.value].name == name
    ensures r.Some? ==> forall j :: 0 <= j < r.value ==> data[j].name != name
    ensures r.None? <==> forall j :: 0 <= j < |data| ==> data[j].name != name
  {
    if data == [] then None
    else if data[0].name == name then Some(0)
    else
      match FirstNamed(data[1..], name)
      case None => None
      case Some(i) => Some(i + 1)
  }

  /** The record `data.find(inst => inst.name === name)` yields. */
  function Lookup(data: seq<Instance>, name: string): (r: Option<Instance>)
    ensures r.None? <==> forall j :: 0 <= j < |data| ==> data[j].name != name
    ensures r.Some? ==> r.value.name == name
    ensures r.Some? ==>
      exists i :: 0 <= i < |data| && data[i] == r.value && forall j :: 0 <= j < i ==> data[j].name != name
  {
    match FirstNamed(data, name)
    case None => None
    case Some(i) => Some(data[i])
  }

  // ---------------------------------------------------------------------------
  // Status classification (getStatusInfo)

  datatype Status = NotFound | Connected | Connecting | QrCode | Disconnected

  /** What the status card shows: the status tag, its badge text and the
      description line. Icons and colours are left out. */
  datatype StatusInfo = StatusInfo(status: Status, badge: string, description: string)

  /** The switch on the raw connection status; "close" and every unknown value
      fall to the disconnected branch. */
  function Classify(raw: string): (s: Status)
    ensures s != NotFound
    ensures s == Disconnected <==> raw != "open" && raw != "connecting" && raw != "qrcode"
  {
    if raw == "open" then Connected
    else if raw == "connecting" then Connecting
    else if raw == "qrcode" then QrCode
    else Disconnected
  }

  /** The raw status that the gateway sends for each status shown for an
      existing instance. */
  function RawStatus(s: Status): string
    requires s != NotFound
  {
    match s
    case Connected => "open"
    case Connecting => "connecting"
    case QrCode => "qrcode"
    case Disconnected => "close"
  }

  /** The profile name is appended only when it is present and not empty. */
  function ProfileSuffix(profileName: Option<string>): (r: string)
    ensures r == "" <==> profileName.None? || profileName.value == ""
    ensures r != "" ==> |r| > 3 && r[..3] == " - " && r[3..] == profileName.value
  {
    if profileName.Some? && profileName.value != "" then " - " + profileName.value else ""
  }

  function GetStatusInfo(instance: Option<Instance>): (info: StatusInfo)
    ensures info.status == NotFound <==> instance.None?
    ensures instance.Some? ==> info.status == Classify(instance.value.connectionStatus)
  {
    match instance
    case None =>
      StatusInfo(NotFound, "Não Encontrada", "Instância \"agente\" não encontrada na Evolution API")
    case Some(inst) =>
      match Classify(inst.connectionStatus)
      case Connected =>
        StatusInfo(Connected, "Conectado", "WhatsApp conectado" + ProfileSuffix(inst.profileName))
      case Connecting =>
        StatusInfo(Connecting, "Conectando...", "Aguardando conexão")
      case QrCode =>
        StatusInfo(QrCode, "QR Code Disponível", "Escaneie o QR Code para conectar")
      case _ =>
        StatusInfo(Disconnected, "Desconectado",
                   "Instância desconectada - Clique em \"Conectar\" para gerar QR Code")
  }

  /** Classification inverts RawStatus: each status of an existing instance is
      shown for exactly the raw value the gateway uses for it. */
  lemma ClassifyRawStatus(s: Status)
    requires s != NotFound
    ensures Classify(RawStatus(s)) == s
  {
  }

  /** Among the four values the gateway documents, the raw value is recovered
      from the status shown. */
  lemma RawStatusOfClassify(raw: string)
    requires raw == "open" || raw == "connecting" || raw == "qrcode" || raw == "close"
    ensures RawStatus(Classify(raw)) == raw
  {
  }

  /** A connected card names the profile exactly when a non-empty profile name
      is known. */
  lemma ConnectedDescription(inst: Instance)
    requires inst.connectionStatus == "open"
    ensures GetStatusInfo(Some(inst)).badge == "Conectado"
    ensures inst.profileName.Some? && inst.profileName.value != "" ==>
      GetStatusInfo(Some(inst)).description == "WhatsApp conectado - " + inst.profileName.value
    ensures inst.profileName.None? || inst.profileName.value == "" ==>
      GetStatusInfo(Some(inst)).description == "WhatsApp conectado"
  {
  }

  // ---------------------------------------------------------------------------
  // Which buttons are shown and enabled

  /** A command button is rendered and enabled. Nothing but the spinner card is
      rendered while `loading`; the connect button needs the raw status "close",
      the disconnect button "open", the delete button any record; all are
      disabled while a command is in flight. */
  predicate Offered(instance: Option<Instance>, loading: bool, pending: ActionLoading, cmd: Command): (o: bool)
    ensures o ==> RefreshOffered(loading, pending) && instance.Some?
    ensures cmd == Delete ==> (o <==> RefreshOffered(loading, pending) && instance.Some?)
    ensures cmd != Delete && instance.Some? && instance.value.connectionStatus == "connecting" ==> !o
  {
    && !loading
    && instance.Some?
    && pending == Idle
    && match cmd
       case Connect => instance.value.connectionStatus == "close"
       case Disconnect => instance.value.connectionStatus == "open"
       case Delete => true
  }

  /** The refresh button: rendered once loaded, disabled while a command runs. */
  predicate RefreshOffered(loading: bool, pending: ActionLoading): (r: bool)
    ensures loading ==> !r
    ensures pending.Busy? ==> !r
    ensures !loading && pending.Idle? ==> r
  {
    !loading && pending == Idle
  }

  /** The buttons agree with the status card: connect is offered only on a
      disconnected card, disconnect exactly on a connected one and delete
      exactly when an instance is shown, in each case once loaded and idle. */
  lemma OfferedMatchesStatus(instance: Option<Instance>, loading: bool, pending: ActionLoading)
    ensures Offered(instance, loading, pending, Connect) <==>
      RefreshOffered(loading, pending) && instance.Some? && instance.value.connectionStatus == "close"
    ensures Offered(instance, loading, pending, Connect) ==>
      GetStatusInfo(instance).status == Disconnected
    ensures Offered(instance, loading, pending, Disconnect) <==>
      RefreshOffered(loading, pending) && GetStatusInfo(instance).status == Connected
    ensures Offered(instance, loading, pending, Delete) <==>
      RefreshOffered(loading, pending) && GetStatusInfo(instance).status != NotFound
  {
  }

  /** While a command is in flight no command and no refresh is offered, and
      connect and disconnect are never offered together. */
  lemma OneCommandAtATime(instance: Option<Instance>, loading: bool, pending: ActionLoading)
    ensures pending != Idle ==>
      !RefreshOffered(loading, pending)
      && forall c: Command :: !Offered(instance, loading, pending, c)
    ensures !(Offered(instance, loading, pending, Connect) && Offered(instance, loading, pending, Disconnect))
  {
  }

  /** A raw status the switch does not know is shown as disconnected, with a
      text that invites the user to connect, yet no connect button is
      rendered for it. */
  lemma UnknownStatusHasNoConnectButton(inst: Instance)
    requires inst.connectionStatus != "open" && inst.connectionStatus != "connecting"
    requires inst.connectionStatus != "qrcode" && inst.connectionStatus != "close"
    ensures GetStatusInfo(Some(inst)).status == Disconnected
    ensures forall loading: bool, pending: ActionLoading :: !Offered(Some(inst), loading, pending, Connect)
  {
  }

  // ---------------------------------------------------------------------------
  // The component state and its events

  class InstancePanel {
    var instanceStatus: Option<Instance>
    var loading: bool
    var actionLoading: ActionLoading

    /** Until the first poll finishes there is no record and no command. This
        records a fact of the component's state at mount that every event
        keeps; no other contract depends on it, since the command buttons
        already require `!loading` through `Offered`. */
    ghost predicate Valid()
      reads this
    {
      loading ==> instanceStatus.None? && actionLoading == Idle
    }

    /** The state at mount. */
    constructor ()
      ensures Valid()
      ensures instanceStatus == None && loading && actionLoading == Idle
    {
      instanceStatus := None;
      loading := true;
      actionLoading := Idle;
    }

    /** One poll (at mount, on the timer, on refresh, or after a command)
        completing with `response`. A success replaces the record with the
        first one named "agente", or with none; a failure keeps the record and
        raises an error toast. Either way `loading` ends false. */
    method FetchInstanceStatus(response: ListResponse) returns (notice: Notice)
      requires Valid()
      modifies this
      ensures Valid()
      ensures !loading && actionLoading == old(actionLoading)
      ensures ListSucceeded(response) ==>
        instanceStatus == Lookup(response.instances, InstanceName) && notice == NoNotice
      ensures !ListSucceeded(response) ==>
        instanceStatus == old(instanceStatus) && notice == ErrorNotice
    {
      if ListSucceeded(response) {
        instanceStatus := Lookup(response.instances, InstanceName);
        notice := NoNotice;
      } else {
        notice := ErrorNotice;
      }
      loading := false;
    }

    /** A click on an offered command button: the command's tag is set. */
    method StartCommand(cmd: Command)
      requires Valid()
      requires Offered(instanceStatus, loading, actionLoading, cmd)
      modifies this
      ensures Valid()
      ensures actionLoading == Busy(cmd)
      ensures instanceStatus == old(instanceStatus) && loading == old(loading)
    {
      actionLoading := Busy(cmd);
    }

    /** The in-flight command's request completing with `response`. The tag is
        cleared whatever the outcome. On success a connect asks for a poll
        after 2000 ms, a disconnect for a poll at once, and a delete clears the
        record without polling; a failure changes nothing else and polls not. */
    method SettleCommand(response: CommandResponse) returns (followUp: FollowUp, notice: Notice)
      requires Valid()
      requires actionLoading.Busy?
      modifies this
      ensures Valid()
      ensures actionLoading == Idle && loading == old(loading)
      ensures CommandSucceeded(response) ==> notice == InfoNotice
      ensures !CommandSucceeded(response) ==>
        notice == ErrorNotice && followUp == NoPoll && instanceStatus == old(instanceStatus)
      ensures CommandSucceeded(response) ==>
        match old(actionLoading.command)
        case Connect => followUp == PollAfter(2000) && instanceStatus == old(instanceStatus)
        case Disconnect => followUp == PollNow && instanceStatus == old(instanceStatus)
        case Delete => followUp == NoPoll && instanceStatus == None
    {
      var cmd := actionLoading.command;
      followUp := NoPoll;
      if CommandSucceeded(response) {
        notice := InfoNotice;
        match cmd
        case Connect =>
          followUp := PollAfter(2000);
        case Disconnect =>
          followUp := PollNow;
        case Delete =>
          instanceStatus := None;
      } else {
        notice := ErrorNotice;
      }
      actionLoading := Idle;
    }
  }

  /** A disconnect started from a connected card, succeeding, followed by its
      immediate poll that reports the instance closed: the card then shows
      disconnected and offers connect again. */
  method DisconnectScenario(inst: Instance) returns (panel: InstancePanel)
    requires inst.name == InstanceName && inst.connectionStatus == "open"
    ensures GetStatusInfo(panel.instanceStatus).status == Disconnected
    ensures Offered(panel.instanceStatus, panel.loading, panel.actionLoading, Connect)
  {
    panel := new InstancePanel();
    var _ := panel.FetchInstanceStatus(ListResponse(200, [inst]));
    assert panel.instanceStatus == Some(inst);
    panel.StartCommand(Disconnect);
    var followUp, _ := panel.SettleCommand(CommandResponse(200));
    assert followUp == PollNow;
    var closed := inst.(connectionStatus := "close");
    var _ := panel.FetchInstanceStatus(ListResponse(200, [closed]));
    assert panel.instanceStatus == Some(closed);
  }
}
