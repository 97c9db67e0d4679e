/** The Windows installer: the state it reports, the Compose service it
    writes from the user's configuration, the status line it shows while
    the guest prepares, and the fixed order of its steps. */
module Install {
  import opened Wrappers
  import opened Text

  // ---------------------------------------------------------------------
  // States and events

  datatype InstallState =
    | Idle
    | CreatingComposeFile
    | CreatingOem
    | StartingContainer
    | MonitoringPreinstall
    | InstallingWindows
    | Completed
    | InstallError

  /** The text each state is shown as. */
  function StateName(s: InstallState): string {
    match s
    case Idle => "Preparing"
    case CreatingComposeFile => "Creating Compose File"
    case CreatingOem => "Creating OEM Assets"
    case StartingContainer => "Starting Container"
    case MonitoringPreinstall => "Monitoring Preinstall"
    case InstallingWindows => "Installing Windows"
    case Completed => "Completed"
    case InstallError => "Install Error"
  }

  /** No two states share a name, so a listener can tell them apart by text alone. */
  lemma StateNamesDistinct(a: InstallState, b: InstallState)
    ensures StateName(a) == StateName(b) <==> a == b
  {
    if a != b {
      assert |StateName(a)| != |StateName(b)| || StateName(a)[0] != StateName(b)[0];
    }
  }

  /** What the installer's emitter publishes. */
  datatype Event = StateChanged(state: InstallState) | PreinstallMessage(msg: string)

  /** The states among the events, in order. */
  function StatesOf(events: seq<Event>): (states: seq<InstallState>)
    ensures |states| <= |events|
  {
    if events == [] then []
    else (if events[0].StateChanged? then [events[0].state] else []) + StatesOf(events[1..])
  }

  /** The events announcing each state in turn. */
  function Changes(states: seq<InstallState>): (events: seq<Event>)
    ensures |events| == |states|
    ensures forall k :: 0 <= k < |states| ==> events[k] == StateChanged(states[k])
  {
    seq(|states|, k requires 0 <= k < |states| => StateChanged(states[k]))
  }

  lemma {:induction false} StatesOfChanges(states: seq<InstallState>)
    ensures StatesOf(Changes(states)) == states
    decreases |states|
  {
    if states != [] {
      assert Changes(states)[1..] == Changes(states[1..]);
      StatesOfChanges(states[1..]);
    }
  }

  lemma {:induction false} NoStatesAmongMessages(events: seq<Event>)
    requires forall k :: 0 <= k < |events| ==> events[k].PreinstallMessage?
    ensures StatesOf(events) == []
    decreases |events|
  {
    if events != [] {
      NoStatesAmongMessages(events[1..]);
    }
  }

  lemma {:induction false} StatesOfAppend(a: seq<Event>, b: seq<Event>)
    ensures StatesOf(a + b) == StatesOf(a) + StatesOf(b)
    decreases |a|
  {
    if a == [] {
      assert a + b == b;
    } else {
      assert (a + b)[0] == a[0];
      assert (a + b)[1..] == a[1..] + b;
      StatesOfAppend(a[1..], b);
    }
  }

  /** What `setPreinstallMsg` emits when the current message is `last`. */
  function Announce(last: string, msg: string): (events: seq<Event>)
    ensures events == [] <==> msg == last
    ensures events != [] ==> events == [PreinstallMessage(msg)]
  {
    if msg == last then [] else [PreinstallMessage(msg)]
  }

  // ---------------------------------------------------------------------
  // The Compose service

  /** The fields of the user's configuration the installer reads. Sizes are whole numbers. */
  datatype InstallConfiguration = InstallConfiguration(
    windowsVersion: string,
    windowsLanguage: string,
    cpuCores: nat,
    ramGB: nat,
    installFolder: string,
    diskSpaceGB: nat,
    username: string,
    password: string,
    customIsoPath: Option<string>)

  /** The `windows` service of the Compose file. */
  datatype WindowsService = WindowsService(
    image: string,
    containerName: string,
    environment: map<string, string>,
    ports: seq<string>,
    volumes: seq<string>,
    devices: seq<string>)

  const TemplateEnvironment: map<string, string> := map[
    "VERSION" := "11",
    "RAM_SIZE" := "4G",
    "CPU_CORES" := "4",
    "DISK_SIZE" := "64G",
    "USERNAME" := "MyWindowsUser",
    "PASSWORD" := "MyWindowsPassword",
    "HOME" := "${HOME}",
    "LANGUAGE" := "English",
    "HOST_PORTS" := "7149",
    "ARGUMENTS" := "-qmp tcp:0.0.0.0:7149,server,wait=off"]

  const TemplateVolumes: seq<string> :=
    ["data:/storage", "${HOME}:/shared", "/dev/bus/usb:/dev/bus/usb", "./oem:/oem"]

  const TemplateService := WindowsService(
    "ghcr.io/dockur/windows:5.03",
    "WinBoat",
    TemplateEnvironment,
    ["8006:8006", "7148:7148", "7149:7149", "3389:3389/tcp", "3389:3389/udp"],
    TemplateVolumes,
    ["/dev/kvm"])

  /** The environment with the seven configured settings written over the template's. */
  function ConfiguredEnvironment(conf: InstallConfiguration, env: map<string, string>): map<string, string> {
    env["RAM_SIZE" := Decimal(conf.ramGB) + "G"]
       ["CPU_CORES" := Decimal(conf.cpuCores)]
       ["DISK_SIZE" := Decimal(conf.diskSpaceGB) + "G"]
       ["VERSION" := conf.windowsVersion]
       ["LANGUAGE" := conf.windowsLanguage]
       ["USERNAME" := conf.username]
       ["PASSWORD" := conf.password]
  }

  predicate IsConfiguredKey(k: string) {
    k in {"RAM_SIZE", "CPU_CORES", "DISK_SIZE", "VERSION", "LANGUAGE", "USERNAME", "PASSWORD"}
  }

  /** The settings carry the configuration, the sizes as decimal numbers with a `G` unit;
      every other variable keeps its template value. */
  lemma EnvironmentSettings(conf: InstallConfiguration, env: map<string, string>)
    ensures var e := ConfiguredEnvironment(conf, env);
      && e.Keys == env.Keys + {"RAM_SIZE", "CPU_CORES", "DISK_SIZE", "VERSION", "LANGUAGE", "USERNAME", "PASSWORD"}
      && e["RAM_SIZE"] == Decimal(conf.ramGB) + "G"
      && FromRadix(e["RAM_SIZE"][..|e["RAM_SIZE"]| - 1], 10) == conf.ramGB
      && e["CPU_CORES"] == Decimal(conf.cpuCores)
      && FromRadix(e["CPU_CORES"], 10) == conf.cpuCores
      && e["DISK_SIZE"] == Decimal(conf.diskSpaceGB) + "G"
      && FromRadix(e["DISK_SIZE"][..|e["DISK_SIZE"]| - 1], 10) == conf.diskSpaceGB
      && e["VERSION"] == conf.windowsVersion && e["LANGUAGE"] == conf.windowsLanguage
      && e["USERNAME"] == conf.username && e["PASSWORD"] == conf.password
      && forall k :: k in env && !IsConfiguredKey(k) ==> e[k] == env[k]
  {
    var ram := Decimal(conf.ramGB) + "G";
    assert ram[..|ram| - 1] == Decimal(conf.ramGB);
    var disk := Decimal(conf.diskSpaceGB) + "G";
    assert disk[..|disk| - 1] == Decimal(conf.diskSpaceGB);
  }

  /** `if (conf.customIsoPath)`: a path that is set and not empty. */
  predicate HasCustomIso(conf: InstallConfiguration) {
    conf.customIsoPath.Some? && conf.customIsoPath.value != ""
  }

  function IsoVolume(path: string): string {
    path + ":/boot.iso"
  }

  function StorageVolume(conf: InstallConfiguration): string {
    conf.installFolder + ":/storage"
  }

  /** `vol.includes('/storage')`. */
  predicate MountsStorage(volume: string) {
    exists i | 0 <= i <= |volume| - 8 :: OccursAt(volume, "/storage", i)
  }

  /** `volumes.findIndex(vol => vol.includes('/storage'))`, as an index when there is one. */
  function FirstStorage(volumes: seq<string>): (r: Option<nat>)
    ensures r.None? <==> forall k :: 0 <= k < |volumes| ==> !MountsStorage(volumes[k])
    ensures r.Some? ==> r.value < |volumes| && MountsStorage(volumes[r.value])
                        && forall k :: 0 <= k < r.value ==> !MountsStorage(volumes[k])
  {
    if volumes == [] then None
    else if MountsStorage(volumes[0]) then Some(0)
    else
      match FirstStorage(volumes[1..])
      case None => None
      case Some(i) => Some(i + 1)
  }

  /** The ISO is appended first; then the first storage volume is pointed at the
      install folder, or one is appended when there is none. */
  function ConfiguredVolumes(conf: InstallConfiguration, volumes: seq<string>): seq<string> {
    var withIso := if HasCustomIso(conf) then volumes + [IsoVolume(conf.customIsoPath.value)] else volumes;
    match FirstStorage(withIso)
    case Some(i) => withIso[i := StorageVolume(conf)]
    case None => withIso + [StorageVolume(conf)]
  }

  function ConfiguredService(conf: InstallConfiguration, service: WindowsService): WindowsService {
    service.(environment := ConfiguredEnvironment(conf, service.environment),
             volumes := ConfiguredVolumes(conf, service.volumes))
  }

  /** A template that already mounts storage keeps its volumes in place: the first storage
      volume now points at the install folder, the ISO comes last, nothing else moves. */
  lemma StorageReplacedInPlace(conf: InstallConfiguration, volumes: seq<string>, i: nat)
    requires FirstStorage(volumes) == Some(i)
    ensures var r := ConfiguredVolumes(conf, volumes);
      && |r| == |volumes| + (if HasCustomIso(conf) then 1 else 0)
      && r[i] == StorageVolume(conf)
      && (forall k :: 0 <= k < |volumes| && k != i ==> r[k] == volumes[k])
      && (HasCustomIso(conf) ==> r[|volumes|] == IsoVolume(conf.customIsoPath.value))
  {
    var withIso := if HasCustomIso(conf) then volumes + [IsoVolume(conf.customIsoPath.value)] else volumes;
    assert withIso[..|volumes|] == volumes;
    assert forall k :: 0 <= k < i ==> withIso[k] == volumes[k];
    assert FirstStorage(withIso) == Some(i);
  }

  /** Without any storage volume, the storage volume is added after everything else. */
  lemma StorageAppended(conf: InstallConfiguration, volumes: seq<string>)
    requires FirstStorage(volumes).None?
    requires HasCustomIso(conf) ==> !MountsStorage(IsoVolume(conf.customIsoPath.value))
    ensures ConfiguredVolumes(conf, volumes) ==
      volumes + (if HasCustomIso(conf) then [IsoVolume(conf.customIsoPath.value)] else []) + [StorageVolume(conf)]
  {
    var withIso := if HasCustomIso(conf) then volumes + [IsoVolume(conf.customIsoPath.value)] else volumes;
    assert forall k :: 0 <= k < |withIso| ==> !MountsStorage(withIso[k]);
    assert FirstStorage(withIso).None?;
  }

  lemma TemplateMountsStorage(v: string)
    requires v == "data:/storage"
    ensures MountsStorage(v)
  {
    assert v[5..13] == "/storage";
    assert OccursAt(v, "/storage", 5);
  }

  /** The service the installer writes: the template with the data volume replaced by
      the install folder, the ISO appended when one is chosen, and the settings applied. */
  lemma ServiceFromTemplate(conf: InstallConfiguration)
    ensures var s := ConfiguredService(conf, TemplateService);
      && s.volumes == [StorageVolume(conf)] + TemplateVolumes[1..]
                      + (if HasCustomIso(conf) then [IsoVolume(conf.customIsoPath.value)] else [])
      && s.environment == ConfiguredEnvironment(conf, TemplateEnvironment)
      && s.image == "ghcr.io/dockur/windows:5.03" && s.devices == ["/dev/kvm"]
  {
    TemplateMountsStorage(TemplateVolumes[0]);
    assert FirstStorage(TemplateVolumes) == Some(0);
    StorageReplacedInPlace(conf, TemplateVolumes, 0);
  }

  // ---------------------------------------------------------------------
  // The preinstall status line

  /** The first `<` at or after `i`, or the end. */
  function NextLt(s: string, i: nat): (j: nat)
    requires i <= |s|
    ensures i <= j <= |s|
    decreases |s| - i
  {
    if i == |s| || s[i] == '<' then i else NextLt(s, i + 1)
  }

  lemma {:induction false} NextLtSpec(s: string, i: nat)
    requires i <= |s|
    ensures forall k :: i <= k < NextLt(s, i) ==> s[k] != '<'
    ensures NextLt(s, i) < |s| ==> s[NextLt(s, i)] == '<'
    decreases |s| - i
  {
    if i < |s| && s[i] != '<' {
      NextLtSpec(s, i + 1);
    }
  }

  /** `/>([^<]+)</` tried at `i`: the captured text. */
  function TagTextAt(s: string, i: nat): Option<string>
    requires i <= |s|
  {
    if i == |s| || s[i] != '>' then None
    else
      var j := NextLt(s, i + 1);
      if j == |s| || j == i + 1 then None else Some(s[i + 1..j])
  }

  /** Where the leftmost match from `i` on starts. */
  function FirstTagFrom(s: string, i: nat): (r: Option<nat>)
    requires i <= |s|
    ensures r.Some? ==> i <= r.value < |s|
    decreases |s| - i
  {
    if i == |s| then None
    else if TagTextAt(s, i).Some? then Some(i)
    else FirstTagFrom(s, i + 1)
  }

  /** The search finds the leftmost match, and none when there is none. */
  lemma {:induction false} FirstTagFromSpec(s: string, i: nat)
    requires i <= |s|
    ensures var r := FirstTagFrom(s, i);
      && (r.None? <==> forall j :: i <= j < |s| ==> TagTextAt(s, j).None?)
      && (r.Some? ==> TagTextAt(s, r.value).Some? && forall k :: i <= k < r.value ==> TagTextAt(s, k).None?)
    decreases |s| - i
  {
    if i < |s| && TagTextAt(s, i).None? {
      FirstTagFromSpec(s, i + 1);
    }
  }

  /** `message.match(/>([^<]+)</)?.[1] || message`: the text of the first tag that has some,
      otherwise the whole body. */
  function PreinstallText(body: string): string {
    match FirstTagFrom(body, 0)
    case None => body
    case Some(i) => body[i + 1..NextLt(body, i + 1)]
  }

  /** The status line is the body itself or the non-empty text of a tag in it. */
  lemma PreinstallTextShown(body: string)
    ensures var r := PreinstallText(body);
      r == body || (r != [] && '<' !in r && exists i :: OccursAt(body, ">" + r + "<", i))
  {
    var f := FirstTagFrom(body, 0);
    FirstTagFromSpec(body, 0);
    if f.Some? {
      var i := f.value;
      var j := NextLt(body, i + 1);
      NextLtSpec(body, i + 1);
      var t := body[i + 1..j];
      assert '<' !in t by {
        assert forall k :: 0 <= k < |t| ==> t[k] == body[i + 1 + k];
      }
      assert OccursAt(body, ">" + t + "<", i) by {
        assert body[i..j + 1] == [body[i]] + t + [body[j]];
      }
    }
  }

  /** A page such as `<p>Downloading Windows…</p>` shows its text. */
  lemma TaggedMessageRead(p: string, m: string, rest: string)
    requires '>' !in p && m != [] && '<' !in m
    ensures PreinstallText(p + ">" + m + "<" + rest) == m
  {
    var s := p + ">" + m + "<" + rest;
    var i := |p|;
    forall k | 0 <= k < i ensures TagTextAt(s, k).None? {
      assert s[k] == p[k];
    }
    assert s[i] == '>';
    assert s[i + 1..i + 1 + |m|] == m;
    assert s[i + 1 + |m|] == '<';
    NextLtSpec(s, i + 1);
    assert NextLt(s, i + 1) == i + 1 + |m|;
    assert TagTextAt(s, i) == Some(m);
    FirstTagFromSpec(s, 0);
    assert FirstTagFrom(s, 0) == Some(i);
  }

  /** A body without any tag to read is shown as it is. */
  lemma PlainMessageKept(body: string)
    requires '<' !in body
    ensures PreinstallText(body) == body
  {
    forall i | 0 <= i < |body| ensures TagTextAt(body, i).None? {
      if body[i] == '>' {
        NextLtSpec(body, i + 1);
        assert NextLt(body, i + 1) == |body|;
      }
    }
    FirstTagFromSpec(body, 0);
  }

  // ---------------------------------------------------------------------
  // The monitoring loops and their oracles

  /** One poll of the container's status page. */
  datatype PageResponse =
    | NotFound                     // status 404: the preinstall phase is over
    | Page(body: string)           // any other status, with its body
    | FetchFailed(message: string) // the request threw

  /** One poll of the guest server's health endpoint. */
  datatype HealthResponse = Status(code: int) | NoAnswer

  /** How a step ended: finished, failed (state INSTALL_ERROR, exception thrown), or
      still polling when the oracle's answers ran out. */
  datatype Outcome = Done | Failed | Polling

  /** `error.message.includes('404')`. */
  predicate Mentions404(message: string) {
    exists i | 0 <= i < |message| - 2 :: message[i] == '4' && message[i + 1] == '0' && message[i + 2] == '4'
  }

  datatype PreinstallRun = PreinstallRun(events: seq<Event>, lastMsg: string, outcome: Outcome)

  /** The messages the preinstall loop publishes, starting with `last` as the current one. */
  function Preinstall(last: string, responses: seq<PageResponse>): PreinstallRun
    decreases |responses|
  {
    if responses == [] then PreinstallRun([], last, Polling)
    else match responses[0]
      case NotFound => PreinstallRun([], last, Done)
      case FetchFailed(m) => PreinstallRun([], last, if Mentions404(m) then Done else Failed)
      case Page(body) =>
        var msg := PreinstallText(body);
        var rest := Preinstall(msg, responses[1..]);
        PreinstallRun(Announce(last, msg) + rest.events, rest.lastMsg, rest.outcome)
  }

  /** Successive status lines always differ: an unchanged message is never published twice. */
  predicate MessagesChange(last: string, events: seq<Event>) {
    && (forall k :: 0 <= k < |events| ==> events[k].PreinstallMessage?)
    && (events != [] ==> events[0].msg != last)
    && forall k :: 1 <= k < |events| ==> events[k].msg != events[k - 1].msg
  }

  /** One page answer: its status line is announced if new, and the loop goes on. */
  lemma PreinstallPage(last: string, responses: seq<PageResponse>)
    requires responses != [] && responses[0].Page?
    ensures var msg := PreinstallText(responses[0].body);
      var rest := Preinstall(msg, responses[1..]);
      Preinstall(last, responses) == PreinstallRun(Announce(last, msg) + rest.events, rest.lastMsg, rest.outcome)
  {
  }

  /** An answer that ends the loop publishes nothing more. */
  lemma PreinstallStop(last: string, responses: seq<PageResponse>)
    requires responses == [] || !responses[0].Page?
    ensures var r := Preinstall(last, responses);
      && r.events == [] && r.lastMsg == last
      && r.outcome == (if responses == [] then Polling
                       else if responses[0].NotFound? || Mentions404(responses[0].message) then Done
                       else Failed)
  {
  }

  /** The last status line published, or `last` when none was. */
  function LastMessage(last: string, events: seq<Event>): string
    requires forall k :: 0 <= k < |events| ==> events[k].PreinstallMessage?
  {
    if events == [] then last else events[|events| - 1].msg
  }

  lemma {:induction false} PreinstallMessagesChange(last: string, responses: seq<PageResponse>)
    ensures var r := Preinstall(last, responses);
      MessagesChange(last, r.events) && r.lastMsg == LastMessage(last, r.events)
    decreases |responses|
  {
    var r := Preinstall(last, responses);
    if responses != [] && responses[0].Page? {
      var msg := PreinstallText(responses[0].body);
      var rest := Preinstall(msg, responses[1..]);
      PreinstallPage(last, responses);
      PreinstallMessagesChange(msg, responses[1..]);
      var a := Announce(last, msg);
      assert r.events == a + rest.events;
      if a != [] {
        assert r.events[0] == PreinstallMessage(msg);
        assert forall k :: 1 <= k < |r.events| ==> r.events[k] == rest.events[k - 1];
      }
    }
  }

  /** The index of the first healthy answer. */
  function FirstHealthy(responses: seq<HealthResponse>): (r: Option<nat>)
    ensures r.None? <==> forall k :: 0 <= k < |responses| ==> responses[k] != Status(200)
    ensures r.Some? ==> r.value < |responses| && responses[r.value] == Status(200)
                        && forall k :: 0 <= k < r.value ==> responses[k] != Status(200)
  {
    if responses == [] then None
    else if responses[0] == Status(200) then Some(0)
    else
      match FirstHealthy(responses[1..])
      case None => None
      case Some(i) => Some(i + 1)
  }

  // ---------------------------------------------------------------------
  // The whole installation

  /** The answers the host gives the installer. */
  datatype World = World(
    guestServerFound: bool,
    oemCopied: bool,
    containerStarted: bool,
    preinstall: seq<PageResponse>,
    health: seq<HealthResponse>)

  /** The states of a successful installation, in order. */
  const SuccessOrder: seq<InstallState> :=
    [CreatingComposeFile, CreatingOem, StartingContainer, MonitoringPreinstall, InstallingWindows, Completed]

  /** The events `install()` publishes, and how it ends. */
  function InstallRun(w: World, last: string): PreinstallRun {
    if !(w.guestServerFound && w.oemCopied && w.containerStarted) then
      PreinstallRun(PreparedEvents(w), last, Failed)
    else
      var r := Watched(Preinstall(last, w.preinstall), w.health);
      PreinstallRun(Monitoring() + r.events, r.lastMsg, r.outcome)
  }

  /** The events published before the container is watched: the states reached, then
      the error if a step failed. */
  function PreparedEvents(w: World): seq<Event> {
    if !w.guestServerFound || !w.oemCopied then
      [StateChanged(CreatingComposeFile), StateChanged(CreatingOem), StateChanged(InstallError)]
    else if !w.containerStarted then
      [StateChanged(CreatingComposeFile), StateChanged(CreatingOem), StateChanged(StartingContainer),
       StateChanged(InstallError)]
    else
      [StateChanged(CreatingComposeFile), StateChanged(CreatingOem), StateChanged(StartingContainer)]
  }

  /** What follows once the container is up, given how the preinstall phase ended: the
      error, nothing more while the page keeps answering, or the health check. */
  function Watched(pre: PreinstallRun, health: seq<HealthResponse>): PreinstallRun {
    if pre.outcome == Failed then
      PreinstallRun(pre.events + [StateChanged(InstallError)], pre.lastMsg, Failed)
    else if pre.outcome == Polling then
      pre
    else if FirstHealthy(health).None? then
      PreinstallRun(pre.events + [StateChanged(InstallingWindows)], pre.lastMsg, Polling)
    else
      PreinstallRun(pre.events + [StateChanged(InstallingWindows), StateChanged(Completed), StateChanged(Completed)],
                    pre.lastMsg, Done)
  }

  /** A successful run visits every state in order (and reports completion twice);
      a failed one follows that order up to the failing step and then reports the error;
      one still polling has followed the order so far. */
  lemma InstallStateOrder(w: World, last: string)
    ensures var r := InstallRun(w, last);
      && (r.outcome == Done ==> StatesOf(r.events) == SuccessOrder + [Completed])
      && (r.outcome == Failed ==> exists k :: 2 <= k <= 4 && StatesOf(r.events) == SuccessOrder[..k] + [InstallError])
      && (r.outcome == Polling ==> exists k :: 4 <= k <= 5 && StatesOf(r.events) == SuccessOrder[..k])
  {
    if !(w.guestServerFound && w.oemCopied && w.containerStarted) {
      PreparedOrder(w);
    } else {
      var pre := Preinstall(last, w.preinstall);
      PreinstallMessagesChange(last, w.preinstall);
      NoStatesAmongMessages(pre.events);
      WatchedOrder(pre, w.health);
    }
  }

  /** A step failing before the container is watched stops the order there. */
  lemma PreparedOrder(w: World)
    requires !(w.guestServerFound && w.oemCopied && w.containerStarted)
    ensures exists k :: 2 <= k <= 3 && StatesOf(PreparedEvents(w)) == SuccessOrder[..k] + [InstallError]
  {
    var k := if !w.guestServerFound || !w.oemCopied then 2 else 3;
    assert Changes(SuccessOrder[..k] + [InstallError]) == PreparedEvents(w);
    StatesOfChanges(SuccessOrder[..k] + [InstallError]);
  }

  /** The order once the container is up, for each way the preinstall phase ends. */
  lemma WatchedOrder(pre: PreinstallRun, health: seq<HealthResponse>)
    requires StatesOf(pre.events) == []
    ensures var r := Watched(pre, health);
      && (r.outcome == Done ==> StatesOf(Monitoring() + r.events) == SuccessOrder + [Completed])
      && (r.outcome == Failed ==> StatesOf(Monitoring() + r.events) == SuccessOrder[..4] + [InstallError])
      && (r.outcome == Polling ==> exists k :: 4 <= k <= 5 && StatesOf(Monitoring() + r.events) == SuccessOrder[..k])
  {
    var tail: seq<InstallState> :=
      if pre.outcome == Failed then [InstallError]
      else if pre.outcome == Polling then []
      else if FirstHealthy(health).None? then [InstallingWindows]
      else [InstallingWindows, Completed, Completed];
    assert Watched(pre, health).events == pre.events + Changes(tail);
    MonitoredStates(pre.events, tail);
    assert Monitoring() + pre.events + Changes(tail) == Monitoring() + Watched(pre, health).events;
    assert SuccessOrder[..4] + [InstallingWindows] == SuccessOrder[..5];
    assert SuccessOrder[..4] + [InstallingWindows, Completed, Completed] == SuccessOrder + [Completed];
  }

  /** The events up to the start of the preinstall phase. */
  function Monitoring(): seq<Event> {
    [StateChanged(CreatingComposeFile), StateChanged(CreatingOem), StateChanged(StartingContainer),
     StateChanged(MonitoringPreinstall)]
  }

  lemma MonitoredStates(pre: seq<Event>, tail: seq<InstallState>)
    requires StatesOf(pre) == []
    ensures StatesOf(Monitoring() + pre + Changes(tail)) == SuccessOrder[..4] + tail
  {
    StatesOfChanges(SuccessOrder[..4]);
    assert Changes(SuccessOrder[..4]) == Monitoring();
    StatesOfAppend(Monitoring(), pre);
    StatesOfChanges(tail);
    StatesOfAppend(Monitoring() + pre, Changes(tail));
  }

  /** The run succeeds exactly when every step does and the guest eventually answers healthy. */
  lemma InstallSucceedsIff(w: World, last: string)
    ensures InstallRun(w, last).outcome == Done <==>
      && w.guestServerFound && w.oemCopied && w.containerStarted
      && Preinstall(last, w.preinstall).outcome == Done
      && exists k :: 0 <= k < |w.health| && w.health[k] == Status(200)
  {
  }

  /** The prepared steps followed by the monitoring state are the run's opening events. */
  lemma ThenMonitored(w: World, prepared: seq<Event>, before: seq<Event>, watched: seq<Event>)
    requires w.guestServerFound && w.oemCopied && w.containerStarted
    requires prepared == before + PreparedEvents(w)
    ensures prepared + [StateChanged(MonitoringPreinstall)] + watched == before + (Monitoring() + watched)
  {
    assert PreparedEvents(w) + [StateChanged(MonitoringPreinstall)] == Monitoring();
  }

  /** The polling loop's invariant: the whole run is what was published so far
      followed by the run over the answers still to come. */
  predicate PolledSoFar(full: PreinstallRun, published: seq<Event>, last: string, rest: seq<PageResponse>) {
    var r := Preinstall(last, rest);
    full == PreinstallRun(published + r.events, r.lastMsg, r.outcome)
  }

  /** A page keeps the invariant once its status line is published. */
  lemma PollPage(full: PreinstallRun, published: seq<Event>, last: string, rest: seq<PageResponse>)
    requires rest != [] && rest[0].Page? && PolledSoFar(full, published, last, rest)
    ensures var msg := PreinstallText(rest[0].body);
      PolledSoFar(full, published + Announce(last, msg), msg, rest[1..])
  {
    var msg := PreinstallText(rest[0].body);
    PreinstallPage(last, rest);
    var r := Preinstall(msg, rest[1..]);
    assert published + (Announce(last, msg) + r.events) == (published + Announce(last, msg)) + r.events;
  }

  /** When the pages stop, everything has been published. */
  lemma PollEnd(full: PreinstallRun, published: seq<Event>, last: string, rest: seq<PageResponse>)
    requires (rest == [] || !rest[0].Page?) && PolledSoFar(full, published, last, rest)
    ensures full.events == published && full.lastMsg == last
    ensures full.outcome == (if rest == [] then Polling
                             else if rest[0].NotFound? || Mentions404(rest[0].message) then Done
                             else Failed)
  {
    PreinstallStop(last, rest);
    assert published + [] == published;
  }

  // ---------------------------------------------------------------------
  // The installer object

  class InstallManager {
    const conf: InstallConfiguration
    /** The bundled Compose service the file is written from. */
    const template: WindowsService
    var state: InstallState
    var preinstallMsg: string
    /** Everything the emitter has published. */
    var events: seq<Event>
    /** The service last written to the Compose file. */
    var composeFile: Option<WindowsService>

    constructor(conf: InstallConfiguration)
      ensures this.conf == conf && template == TemplateService
      ensures state == Idle && preinstallMsg == "" && events == [] && composeFile == None
    {
      this.conf := conf;
      template := TemplateService;
      state := Idle;
      preinstallMsg := "";
      events := [];
      composeFile := None;
    }

    method ChangeState(newState: InstallState)
      modifies this
      ensures state == newState && events == old(events) + [StateChanged(newState)]
      ensures preinstallMsg == old(preinstallMsg) && composeFile == old(composeFile)
    {
      state := newState;
      events := events + [StateChanged(newState)];
    }

    method SetPreinstallMsg(msg: string)
      modifies this
      ensures preinstallMsg == msg
      ensures events == old(events) + Announce(old(preinstallMsg), msg)
      ensures state == old(state) && composeFile == old(composeFile)
    {
      if msg == preinstallMsg {
        return;
      }
      preinstallMsg := msg;
      events := events + [PreinstallMessage(msg)];
    }

    method CreateComposeFile()
      modifies this
      ensures composeFile == Some(ConfiguredService(conf, template))
      ensures state == CreatingComposeFile && preinstallMsg == old(preinstallMsg)
      ensures events == old(events) + [StateChanged(CreatingComposeFile)]
    {
      ChangeState(CreatingComposeFile);
      var service := template;
      var env := ApplySettings(conf, service.environment);
      var volumes := PlaceVolumes(conf, service.volumes);
      composeFile := Some(service.(environment := env, volumes := volumes));
    }

    /** Copying the guest server into the OEM folder: a missing source folder or a failed
        copy reports the error. */
    method CreateOemAssets(sourceFound: bool, copied: bool) returns (ok: bool)
      modifies this
      ensures ok <==> sourceFound && copied
      ensures events == old(events) + [StateChanged(CreatingOem)] + (if ok then [] else [StateChanged(InstallError)])
      ensures state == (if ok then CreatingOem else InstallError)
      ensures preinstallMsg == old(preinstallMsg) && composeFile == old(composeFile)
    {
      ChangeState(CreatingOem);
      if !sourceFound || !copied {
        ChangeState(InstallError);
        return false;
      }
      return true;
    }

    /** `docker compose up -d`: a failure reports the error. */
    method StartContainer(started: bool) returns (ok: bool)
      modifies this
      ensures ok == started
      ensures events == old(events) + [StateChanged(StartingContainer)] + (if ok then [] else [StateChanged(InstallError)])
      ensures state == (if ok then StartingContainer else InstallError)
      ensures preinstallMsg == old(preinstallMsg) && composeFile == old(composeFile)
    {
      ChangeState(StartingContainer);
      if !started {
        ChangeState(InstallError);
        return false;
      }
      return true;
    }

    /** Polls the status page until it is gone, publishing each new status line. */
    method MonitorContainerPreinstall(responses: seq<PageResponse>) returns (outcome: Outcome)
      modifies this
      ensures var r := Preinstall(old(preinstallMsg), responses);
        && outcome == r.outcome && preinstallMsg == r.lastMsg
        && events == old(events) + [StateChanged(MonitoringPreinstall)] + r.events
                     + (if outcome == Failed then [StateChanged(InstallError)] else [])
      ensures state == (if outcome == Failed then InstallError else MonitoringPreinstall)
      ensures composeFile == old(composeFile)
    {
      ChangeState(MonitoringPreinstall);
      outcome := PollPreinstall(responses);
      if outcome == Failed {
        ChangeState(InstallError);
      }
    }

    /** The polling loop itself. */
    method PollPreinstall(responses: seq<PageResponse>) returns (outcome: Outcome)
      modifies this
      ensures var r := Preinstall(old(preinstallMsg), responses);
        && outcome == r.outcome && preinstallMsg == r.lastMsg && events == old(events) + r.events
      ensures composeFile == old(composeFile) && state == old(state)
    {
      ghost var full := Preinstall(preinstallMsg, responses);
      ghost var published: seq<Event> := [];
      assert responses[0..] == responses;
      var i := 0;
      while i < |responses| && responses[i].Page?
        invariant 0 <= i <= |responses| && events == old(events) + published
        invariant composeFile == old(composeFile) && state == old(state)
        invariant PolledSoFar(full, published, preinstallMsg, responses[i..])
      {
        ghost var last := preinstallMsg;
        var msg := PreinstallText(responses[i].body);
        SetPreinstallMsg(msg);
        PollPage(full, published, last, responses[i..]);
        assert responses[i..][1..] == responses[i + 1..];
        published := published + Announce(last, msg);
        i := i + 1;
      }
      PollEnd(full, published, preinstallMsg, responses[i..]);
      if i == |responses| {
        outcome := Polling;
      } else if responses[i].NotFound? || Mentions404(responses[i].message) {
        outcome := Done;
      } else {
        outcome := Failed;
      }
    }

    /** Polls the guest server until it answers 200, counting the failed attempts. */
    method MonitorApiHealth(responses: seq<HealthResponse>) returns (healthy: bool, attempts: nat)
      modifies this
      ensures healthy <==> FirstHealthy(responses).Some?
      ensures attempts == if healthy then FirstHealthy(responses).value else |responses|
      ensures events == old(events) + [StateChanged(InstallingWindows)] + (if healthy then [StateChanged(Completed)] else [])
      ensures state == (if healthy then Completed else InstallingWindows)
      ensures preinstallMsg == old(preinstallMsg) && composeFile == old(composeFile)
    {
      ChangeState(InstallingWindows);
      attempts := 0;
      while attempts < |responses|
        invariant attempts <= |responses|
        invariant forall k :: 0 <= k < attempts ==> responses[k] != Status(200)
        invariant events == old(events) + [StateChanged(InstallingWindows)] && state == InstallingWindows
        invariant preinstallMsg == old(preinstallMsg) && composeFile == old(composeFile)
      {
        if responses[attempts] == Status(200) {
          ChangeState(Completed);
          return true, attempts;
        }
        attempts := attempts + 1;
      }
      return false, attempts;
    }

    /** `install()`: the steps in order, stopping at the first that fails. */
    method Install(w: World) returns (outcome: Outcome)
      modifies this
      ensures outcome == InstallRun(w, old(preinstallMsg)).outcome
      ensures events == old(events) + InstallRun(w, old(preinstallMsg)).events
      ensures preinstallMsg == InstallRun(w, old(preinstallMsg)).lastMsg
      ensures composeFile == Some(ConfiguredService(conf, template))
      ensures outcome == Done ==> state == Completed
      ensures outcome == Failed ==> state == InstallError
    {
      var ok := Prepare(w);
      if !ok {
        return Failed;
      }
      ghost var prepared := events;
      outcome := Watch(w);
      ThenMonitored(w, prepared, old(events), Watched(Preinstall(old(preinstallMsg), w.preinstall), w.health).events);
    }

    /** The container is up: watch the preinstall page, then the guest server's health. */
    method Watch(w: World) returns (outcome: Outcome)
      modifies this
      ensures outcome == Watched(Preinstall(old(preinstallMsg), w.preinstall), w.health).outcome
      ensures preinstallMsg == Watched(Preinstall(old(preinstallMsg), w.preinstall), w.health).lastMsg
      ensures events == old(events) + [StateChanged(MonitoringPreinstall)]
                        + Watched(Preinstall(old(preinstallMsg), w.preinstall), w.health).events
      ensures outcome == Done ==> state == Completed
      ensures outcome == Failed ==> state == InstallError
      ensures composeFile == old(composeFile)
    {
      outcome := MonitorContainerPreinstall(w.preinstall);
      if outcome != Done {
        return;
      }
      var healthy, _ := MonitorApiHealth(w.health);
      if !healthy {
        return Polling;
      }
      ChangeState(Completed);
      return Done;
    }

    /** The steps before the container is watched: the Compose file, the OEM assets and
        starting the container. */
    method Prepare(w: World) returns (ok: bool)
      modifies this
      ensures ok <==> w.guestServerFound && w.oemCopied && w.containerStarted
      ensures events == old(events) + PreparedEvents(w)
      ensures state == (if ok then StartingContainer else InstallError)
      ensures composeFile == Some(ConfiguredService(conf, template))
      ensures preinstallMsg == old(preinstallMsg)
    {
      CreateComposeFile();
      ok := CreateOemAssets(w.guestServerFound, w.oemCopied);
      if !ok {
        return;
      }
      ok := StartContainer(w.containerStarted);
    }
  }

  /** The seven assignments to the service's environment. */
  method ApplySettings(conf: InstallConfiguration, template: map<string, string>) returns (env: map<string, string>)
    ensures env == ConfiguredEnvironment(conf, template)
  {
    env := template;
    env := env["RAM_SIZE" := Decimal(conf.ramGB) + "G"];
    env := env["CPU_CORES" := Decimal(conf.cpuCores)];
    env := env["DISK_SIZE" := Decimal(conf.diskSpaceGB) + "G"];
    env := env["VERSION" := conf.windowsVersion];
    env := env["LANGUAGE" := conf.windowsLanguage];
    env := env["USERNAME" := conf.username];
    env := env["PASSWORD" := conf.password];
  }

  /** The ISO `push`, then the storage volume assigned in place or pushed. */
  method PlaceVolumes(conf: InstallConfiguration, template: seq<string>) returns (volumes: seq<string>)
    ensures volumes == ConfiguredVolumes(conf, template)
  {
    volumes := template;
    if HasCustomIso(conf) {
      volumes := volumes + [IsoVolume(conf.customIsoPath.value)];
    }
    var index := FindStorageVolume(volumes);
    if index != -1 {
      volumes := volumes[index := StorageVolume(conf)];
    } else {
      volumes := volumes + [StorageVolume(conf)];
    }
  }

  /** `findIndex` over the volumes, `-1` when none mounts storage. */
  method FindStorageVolume(volumes: seq<string>) returns (index: int)
    ensures index == match FirstStorage(volumes) case None => -1 case Some(i) => i
  {
    index := 0;
    while index < |volumes|
      invariant 0 <= index <= |volumes|
      invariant forall k :: 0 <= k < index ==> !MountsStorage(volumes[k])
    {
      if MountsStorage(volumes[index]) {
        return;
      }
      index := index + 1;
    }
    return -1;
  }
}
